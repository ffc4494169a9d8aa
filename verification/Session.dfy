/**
 A principal's shared session: the receiver's cursor, the running flag and the
 drafts of the turn in progress, fed by an event stream that may be cut,
 resumed and delivered again.
 */
module Session {
  import opened Wrappers

  const MAX_DRAFT_BYTES := 4 * 1024 * 1024

  type Bytes = seq<bv8>

  datatype Body =
    | SessionOpened
    | RunStarted
    | ModelTurnStarted
    | TextDelta(delta: Bytes)
    | ReasoningDelta(delta: Bytes)
    | Snapshot(text: Bytes)
    | ToolStarted
    | ToolFinished
    | RunFinished
    | RunFailed
    | Notice
    | Unset

  datatype Event = Event(index: int, turn: int, time: int, body: Body)

  datatype State = State(
    index: int, turn: int, lastTime: int, running: bool, text: Bytes, reasoning: Bytes)

  /** A session without a stream behind it. */
  const IDLE := State(0, 0, 0, false, [], [])

  /** What stale deliveries must not change. */
  datatype View = View(index: int, running: bool, text: Bytes, reasoning: Bytes)

  function ViewOf(s: State): View { View(s.index, s.running, s.text, s.reasoning) }

  function Bounded(b: Bytes): Bytes {
    if |b| > MAX_DRAFT_BYTES then b[..MAX_DRAFT_BYTES] else b
  }

  function BoundedAppend(current: Bytes, delta: Bytes): (r: Bytes)
    requires |current| <= MAX_DRAFT_BYTES
    ensures |r| <= MAX_DRAFT_BYTES
    ensures r == Bounded(current + delta)
  {
    var remaining := MAX_DRAFT_BYTES - |current|;
    if |delta| > remaining then current + delta[..remaining] else current + delta
  }

  predicate Within(s: State) {
    |s.text| <= MAX_DRAFT_BYTES && |s.reasoning| <= MAX_DRAFT_BYTES
  }

  predicate Ignored(s: State, e: Event) { e.index <= s.index && !e.body.Notice? }

  /** One event, as the receiver takes it. */
  function Apply(s: State, e: Event): (t: State)
    requires Within(s)
    ensures Within(t)
    ensures t.index == if e.index > s.index then e.index else s.index
    ensures e.index <= s.index ==> ViewOf(t) == ViewOf(s)
  {
    if Ignored(s, e) then s
    else
      var index := if e.index > s.index then e.index else s.index;
      var turn := if e.turn != 0 then e.turn else s.turn;
      var u := s.(index := index, turn := turn, lastTime := e.time);
      match e.body
      case RunStarted => u.(running := true, text := [], reasoning := [])
      case ModelTurnStarted => u.(running := true, text := [], reasoning := [])
      case TextDelta(delta) => u.(running := true, text := BoundedAppend(s.text, delta))
      case ReasoningDelta(delta) => u.(running := true, reasoning := BoundedAppend(s.reasoning, delta))
      case Snapshot(text) => u.(running := true, text := Bounded(text))
      case ToolStarted => u.(running := true)
      case ToolFinished => u.(running := true)
      case RunFinished => u.(running := false, text := [], reasoning := [])
      case RunFailed => u.(running := false, text := [], reasoning := [])
      case SessionOpened => u
      case Notice => u
      case Unset => u
  }

  function ApplyAll(s: State, es: seq<Event>): (t: State)
    requires Within(s)
    ensures Within(t)
    decreases |es|
  {
    if es == [] then s else ApplyAll(Apply(s, es[0]), es[1..])
  }

  lemma {:induction false} ApplyAllAppend(s: State, es: seq<Event>, fs: seq<Event>)
    requires Within(s)
    ensures ApplyAll(s, es + fs) == ApplyAll(ApplyAll(s, es), fs)
    decreases |es|
  {
    if es == [] {
      assert es + fs == fs;
    } else {
      assert (es + fs)[1..] == es[1..] + fs;
      ApplyAllAppend(Apply(s, es[0]), es[1..], fs);
    }
  }

  /** The highest index among a cursor and events. */
  function Reached(index: int, es: seq<Event>): int {
    if es == [] then index
    else
      var before := Reached(index, es[..|es| - 1]);
      if es[|es| - 1].index > before then es[|es| - 1].index else before
  }

  lemma ReachedSnoc(index: int, es: seq<Event>, e: Event)
    ensures Reached(index, es + [e]) == if e.index > Reached(index, es) then e.index else Reached(index, es)
  {
    assert (es + [e])[..|es|] == es;
  }

  lemma {:induction false} ReachedIs(index: int, es: seq<Event>, ack: int)
    ensures ack <= Reached(index, es) <==> ack <= index || exists e :: e in es && e.index >= ack
  {
    if es != [] {
      var rest, last := es[..|es| - 1], es[|es| - 1];
      assert es == rest + [last];
      ReachedIs(index, rest, ack);
    }
  }

  /** A delivery takes the cursor to the highest index it reaches. */
  lemma {:induction false} ApplyReaches(s: State, es: seq<Event>)
    requires Within(s)
    ensures ApplyAll(s, es).index == Reached(s.index, es)
  {
    if es != [] {
      var rest, last := es[..|es| - 1], es[|es| - 1];
      assert es == rest + [last];
      ApplyReaches(s, rest);
      ApplyAllAppend(s, rest, [last]);
      AppliedOne(ApplyAll(s, rest), last);
    }
  }

  lemma AppliedOne(s: State, e: Event)
    requires Within(s)
    ensures ApplyAll(s, [e]) == Apply(s, e)
  {
    assert [e][1..] == [];
  }

  /** An acknowledgement that was valid stays valid until the session is lost. */
  lemma AckStaysValid(s: State, es: seq<Event>, ack: int)
    requires Within(s) && 0 <= ack <= s.index
    ensures 0 <= ack <= ApplyAll(s, es).index
  {
    ApplyReaches(s, es);
    ReachedIs(s.index, es, ack);
  }

  // ------------------------------------------------- the session object

  datatype Attempt = Attempt(events: seq<Event>, notFound: bool)

  /** What the watcher leaves behind after a run of connection attempts. */
  function WatchAll(s: State, attempts: seq<Attempt>): State
    requires Within(s)
    decreases |attempts|
  {
    if attempts == [] then s
    else
      var t := ApplyAll(s, attempts[0].events);
      if attempts[0].notFound then IDLE.(lastTime := t.lastTime) else WatchAll(t, attempts[1..])
  }

  datatype Progress = Progress(turn: int, index: int, text: Bytes, reasoning: Bytes)

  class Shared {
    var index: int
    var turn: int
    var lastTime: int
    var running: bool
    var text: Bytes
    var reasoning: Bytes
    /** Every event received since the session began. */
    ghost var delivered: seq<Event>

    ghost function Value(): State
      reads this
    {
      State(index, turn, lastTime, running, text, reasoning)
    }

    ghost predicate Valid()
      reads this
    {
      Within(Value()) && index == Reached(0, delivered)
    }

    constructor ()
      ensures Valid() && Value() == IDLE && delivered == []
      ensures index == 0 && turn == 0 && !running && text == [] && reasoning == []
    {
      index, turn, lastTime, running, text, reasoning := 0, 0, 0, false, [], [];
      delivered := [];
    }

    method Receive(e: Event) returns (broadcast: bool)
      requires Valid()
      modifies this
      ensures Valid() && Value() == Apply(old(Value()), e) && delivered == old(delivered) + [e]
      ensures broadcast <==> (e.index > old(index) || e.body.Notice?) && !e.body.Unset?
    {
      hide Reached, BoundedAppend;
      ReachedSnoc(0, delivered, e);
      delivered := delivered + [e];
      if e.index <= index {
        if !e.body.Notice? {
          return false;
        }
      } else {
        index := e.index;
      }
      lastTime := e.time;
      if e.turn != 0 {
        turn := e.turn;
      }
      match e.body {
      case RunStarted => running, text, reasoning := true, [], [];
      case ModelTurnStarted => running, text, reasoning := true, [], [];
      case TextDelta(delta) => running, text := true, BoundedAppend(text, delta);
      case ReasoningDelta(delta) => running, reasoning := true, BoundedAppend(reasoning, delta);
      case Snapshot(draft) =>
        running, text := true, draft;
        if |text| > MAX_DRAFT_BYTES {
          text := text[..MAX_DRAFT_BYTES];
        }
      case ToolStarted => running := true;
      case ToolFinished => running := true;
      case RunFinished => running, text, reasoning := false, [], [];
      case RunFailed => running, text, reasoning := false, [], [];
      case SessionOpened =>
      case Notice =>
      case Unset =>
      }
      broadcast := !e.body.Unset?;
    }

    /** One stream, read to its end. */
    method Follow(events: seq<Event>)
      requires Valid()
      modifies this
      ensures Valid() && Value() == ApplyAll(old(Value()), events) && delivered == old(delivered) + events
    {
      hide Reached;
      var i := 0;
      while i < |events|
        invariant 0 <= i <= |events| && Valid()
        invariant ApplyAll(Value(), events[i..]) == ApplyAll(old(Value()), events)
        invariant delivered == old(delivered) + events[..i]
      {
        assert events[..i + 1] == events[..i] + [events[i]];
        var _ := Receive(events[i]);
        assert events[i..][1..] == events[i + 1..];
        i := i + 1;
      }
    }

    /** Streams are opened again and again until the agent no longer knows the
        session; only then is the cursor thrown away. */
    method Watch(attempts: seq<Attempt>) returns (resync: bool)
      requires Valid()
      modifies this
      ensures Valid() && Value() == WatchAll(old(Value()), attempts)
      ensures resync <==> exists i :: 0 <= i < |attempts| && attempts[i].notFound
      ensures resync ==> Value().(lastTime := 0) == IDLE
      ensures resync ==> index == 0 && turn == 0 && !running && text == [] && reasoning == []
    {
      var i := 0;
      while i < |attempts|
        invariant 0 <= i <= |attempts| && Valid()
        invariant WatchAll(Value(), attempts[i..]) == WatchAll(old(Value()), attempts)
        invariant forall j | 0 <= j < i :: !attempts[j].notFound
      {
        Follow(attempts[i].events);
        assert attempts[i..][1..] == attempts[i + 1..];
        if attempts[i].notFound {
          index, turn, running, text, reasoning := 0, 0, false, [], [];
          delivered := [];
          return true;
        }
        i := i + 1;
      }
      resync := false;
    }

    method Draft() returns (p: Option<Progress>)
      requires Valid()
      ensures p == if running then Some(Progress(turn, index, text, reasoning)) else None
      ensures p.Some? ==> |p.value.text| <= MAX_DRAFT_BYTES && |p.value.reasoning| <= MAX_DRAFT_BYTES
    {
      if !running {
        return None;
      }
      return Some(Progress(turn, index, text, reasoning));
    }

    /** An acknowledgement is valid if it is for nothing, or for no more than what
        the session has received since it began. */
    method ValidAck(ack: int) returns (ok: bool)
      requires Valid()
      ensures ok <==> ack == 0 || (ack > 0 && exists e :: e in delivered && e.index >= ack)
    {
      ReachedIs(0, delivered, ack);
      return ack >= 0 && ack <= index;
    }
  }

  // ------------------------------------------------- redelivery

  /** The events of a delivery that raise the cursor. */
  function Raising(index: int, es: seq<Event>): seq<Event>
    decreases |es|
  {
    if es == [] then []
    else if es[0].index > index then [es[0]] + Raising(es[0].index, es[1..])
    else Raising(index, es[1..])
  }

  ghost predicate Climbing(index: int, es: seq<Event>) {
    && (forall i | 0 <= i < |es| :: es[i].index > index)
    && (forall i, j | 0 <= i < j < |es| :: es[i].index < es[j].index)
  }

  lemma {:induction false} RaisingClimbs(index: int, es: seq<Event>)
    ensures Climbing(index, Raising(index, es))
    decreases |es|
  {
    if es != [] {
      RaisingClimbs(if es[0].index > index then es[0].index else index, es[1..]);
    }
  }

  /** Equal views stay equal. */
  lemma ApplyView(s: State, t: State, e: Event)
    requires Within(s) && Within(t) && ViewOf(s) == ViewOf(t)
    ensures ViewOf(Apply(s, e)) == ViewOf(Apply(t, e))
  {
  }

  lemma {:induction false} ApplyAllView(s: State, t: State, es: seq<Event>)
    requires Within(s) && Within(t) && ViewOf(s) == ViewOf(t)
    ensures ViewOf(ApplyAll(s, es)) == ViewOf(ApplyAll(t, es))
    decreases |es|
  {
    if es != [] {
      ApplyView(s, t, es[0]);
      ApplyAllView(Apply(s, es[0]), Apply(t, es[0]), es[1..]);
    }
  }

  /** Duplicates and stale redeliveries leave index, running flag and drafts as
      if only the events that raise the cursor had arrived. */
  lemma {:induction false} OnlyRaisingCounts(s: State, es: seq<Event>)
    requires Within(s)
    ensures ViewOf(ApplyAll(s, es)) == ViewOf(ApplyAll(s, Raising(s.index, es)))
    decreases |es|
  {
    if es != [] {
      var t := Apply(s, es[0]);
      OnlyRaisingCounts(t, es[1..]);
      if es[0].index > s.index {
        assert Raising(s.index, es)[1..] == Raising(t.index, es[1..]);
      } else {
        ApplyAllView(t, s, Raising(s.index, es[1..]));
      }
    }
  }

  /** A stale event changes something exactly when it is a notice with another
      time or names another turn. */
  lemma StaleChangesExactly(s: State, e: Event)
    requires Within(s) && e.index <= s.index
    ensures Apply(s, e) == s <==>
      !e.body.Notice? || (e.time == s.lastTime && (e.turn == 0 || e.turn == s.turn))
  {
  }

  /** The stale notices that name a turn, since an event with a turn last raised
      the cursor. */
  function StaleTail(index: int, es: seq<Event>): seq<Event> {
    if es == [] then []
    else
      var rest, last := es[..|es| - 1], es[|es| - 1];
      if last.turn == 0 then StaleTail(index, rest)
      else if last.index > Reached(index, rest) then []
      else if last.body.Notice? then StaleTail(index, rest) + [last]
      else StaleTail(index, rest)
  }

  lemma {:induction false} RaisingSnoc(index: int, es: seq<Event>, e: Event)
    ensures Raising(index, es + [e]) ==
            if e.index > Reached(index, es) then Raising(index, es) + [e] else Raising(index, es)
    decreases |es|
  {
    if es == [] {
      assert es + [e] == [e] && [e][1..] == [];
    } else {
      assert (es + [e])[1..] == es[1..] + [e];
      var next := if es[0].index > index then es[0].index else index;
      ReachedFront(index, es);
      RaisingSnoc(next, es[1..], e);
    }
  }

  lemma {:induction false} ReachedFront(index: int, es: seq<Event>)
    requires es != []
    ensures Reached(index, es) == Reached(if es[0].index > index then es[0].index else index, es[1..])
    decreases |es|
  {
    if |es| > 1 {
      var rest := es[..|es| - 1];
      ReachedFront(index, rest);
      assert rest[1..] == es[1..][..|es[1..]| - 1];
    }
  }

  lemma TurnStep(s: State, e: Event)
    requires Within(s)
    ensures Apply(s, e).turn == if e.turn != 0 && (e.index > s.index || e.body.Notice?) then e.turn else s.turn
  {
  }

  lemma TimeStep(s: State, e: Event)
    requires Within(s)
    ensures Apply(s, e).lastTime == if e.index > s.index || e.body.Notice? then e.time else s.lastTime
  {
  }

  /** The time is that of the last event that raised the cursor or was a notice;
      after it only stale events came. */
  lemma {:induction false} TimeIs(s: State, es: seq<Event>, e: Event, stale: seq<Event>)
    requires Within(s) && (e.index > ApplyAll(s, es).index || e.body.Notice?)
    requires forall f | f in stale :: f.index <= ApplyAll(s, es + [e]).index && !f.body.Notice?
    ensures ApplyAll(s, es + [e] + stale).lastTime == e.time
    decreases |stale|
  {
    hide Apply;
    if stale == [] {
      assert es + [e] + stale == es + [e];
      ApplyAllAppend(s, es, [e]);
      AppliedOne(ApplyAll(s, es), e);
      TimeStep(ApplyAll(s, es), e);
    } else {
      var rest, last := stale[..|stale| - 1], stale[|stale| - 1];
      assert stale == rest + [last];
      assert es + [e] + stale == es + [e] + rest + [last];
      TimeIs(s, es, e, rest);
      ApplyAllAppend(s, es + [e] + rest, [last]);
      AppliedOne(ApplyAll(s, es + [e] + rest), last);
      TimeStep(ApplyAll(s, es + [e] + rest), last);
      ApplyAllAppend(s, es + [e], rest);
      ApplyReaches(ApplyAll(s, es + [e]), rest);
      ReachedIs(ApplyAll(s, es + [e]).index, rest, last.index);
    }
  }

  /** The turn after any delivery: that of the events that raise the cursor,
      unless a stale notice has since named another. The two agree if and only
      if there is no such notice or the last one names the same turn. */
  lemma {:induction false} TurnIs(s: State, es: seq<Event>)
    requires Within(s)
    ensures
      var stale, raised := StaleTail(s.index, es), ApplyAll(s, Raising(s.index, es)).turn;
      && ApplyAll(s, es).turn == (if stale == [] then raised else stale[|stale| - 1].turn)
      && (ApplyAll(s, es).turn == raised <==> stale == [] || stale[|stale| - 1].turn == raised)
  {
    hide Apply;
    if es != [] {
      var rest, last := es[..|es| - 1], es[|es| - 1];
      assert es == rest + [last];
      var t, r := ApplyAll(s, rest), Raising(s.index, rest);
      TurnIs(s, rest);
      ApplyReaches(s, rest);
      ApplyAllAppend(s, rest, [last]);
      AppliedOne(t, last);
      TurnStep(t, last);
      RaisingSnoc(s.index, rest, last);
      OnlyRaisingCounts(s, rest);
      ApplyAllAppend(s, r, [last]);
      AppliedOne(ApplyAll(s, r), last);
      TurnStep(ApplyAll(s, r), last);
    }
  }

  // ------------------------------------------------- one log, many connections

  ghost predicate Log(log: seq<Event>) {
    && (forall i | 0 <= i < |log| :: log[i].index > 0)
    && (forall i, j | 0 <= i < j < |log| :: log[i].index < log[j].index)
  }

  function CursorAt(log: seq<Event>, n: nat): int
    requires n <= |log|
  {
    if n == 0 then 0 else log[n - 1].index
  }

  /** A connection that was opened after the first `n` events arrived: it
      resends from wherever the server likes, but skips nothing; stale notices
      may stand anywhere between. */
  predicate Covers(log: seq<Event>, n: nat, m: nat, es: seq<Event>)
    requires n <= m <= |log|
    decreases |es|
  {
    if es == [] then n == m
    else if n < m && es[0] == log[n] then Covers(log, n + 1, m, es[1..])
    else es[0].index <= CursorAt(log, n) && Covers(log, n, m, es[1..])
  }

  /** A plain window of the log that starts at or before the cursor covers. */
  lemma {:induction false} WindowCovers(log: seq<Event>, n: nat, a: nat, b: nat)
    requires Log(log) && a <= n <= |log| && a <= b <= |log|
    ensures var m := if b > n then b else n; Covers(log, n, m, log[a..b])
    decreases b - a
  {
    if a < b {
      assert log[a..b][1..] == log[a + 1..b];
      WindowCovers(log, if a == n then n + 1 else n, a + 1, b);
    }
  }

  lemma {:induction false} CoveringAdvances(log: seq<Event>, n: nat, m: nat, s: State, es: seq<Event>)
    requires Log(log) && n <= m <= |log| && Within(s) && s.index == CursorAt(log, n)
    requires Covers(log, n, m, es)
    ensures ViewOf(ApplyAll(s, es)) == ViewOf(ApplyAll(s, log[n..m]))
    ensures ApplyAll(s, es).index == CursorAt(log, m)
    decreases |es|
  {
    if es == [] {
      assert log[n..m] == [];
    } else if n < m && es[0] == log[n] {
      CoveringAdvances(log, n + 1, m, Apply(s, es[0]), es[1..]);
      assert log[n..m][1..] == log[n + 1..m];
    } else {
      var t := Apply(s, es[0]);
      CoveringAdvances(log, n, m, t, es[1..]);
      ApplyAllView(t, s, log[n..m]);
    }
  }

  /** How far each attempt got: attempt i starts with `reached[i]` events seen. */
  ghost predicate Resumed(log: seq<Event>, reached: seq<nat>, attempts: seq<Attempt>) {
    && |reached| == |attempts| + 1 && (forall i | 0 <= i < |reached| :: reached[i] <= |log|)
    && forall i | 0 <= i < |attempts| ::
         && reached[i] <= reached[i + 1] && !attempts[i].notFound
         && Covers(log, reached[i], reached[i + 1], attempts[i].events)
  }

  /** At-least-once delivery has exactly-once effect: over any number of cut and
      resumed streams of one log, the session looks as if the part of the log
      that arrived had been read once, in order. */
  lemma {:induction false} ReadOnce(
    log: seq<Event>, s: State, reached: seq<nat>, attempts: seq<Attempt>)
    requires Log(log) && Resumed(log, reached, attempts)
    requires Within(s) && s.index == CursorAt(log, reached[0])
    ensures
      var m := reached[|attempts|];
      reached[0] <= m && ViewOf(WatchAll(s, attempts)) == ViewOf(ApplyAll(s, log[reached[0]..m]))
    decreases |attempts|
  {
    var n, m := reached[0], reached[|attempts|];
    if attempts == [] {
      assert log[n..m] == [];
    } else {
      var t, k := ApplyAll(s, attempts[0].events), reached[1];
      CoveringAdvances(log, n, k, s, attempts[0].events);
      ReadOnce(log, t, reached[1..], attempts[1..]);
      ApplyAllView(t, ApplyAll(s, log[n..k]), log[k..m]);
      ApplyAllAppend(s, log[n..k], log[k..m]);
      Spliced(log, n, k, m);
    }
  }

  lemma Spliced(log: seq<Event>, n: nat, k: nat, m: nat)
    requires n <= k <= m <= |log|
    ensures log[n..k] + log[k..m] == log[n..m]
  {
  }

  // ------------------------------------------------- what the drafts hold

  predicate Resets(b: Body) {
    b.RunStarted? || b.ModelTurnStarted? || b.RunFinished? || b.RunFailed?
  }

  predicate TextBase(b: Body) { Resets(b) || b.Snapshot? }

  /** The bytes an event sets a draft to. */
  function BaseOf(b: Body): Bytes { if b.Snapshot? then b.text else [] }

  function TextDeltas(es: seq<Event>): Bytes {
    if es == [] then []
    else
      var rest, last := es[..|es| - 1], es[|es| - 1];
      TextDeltas(rest) + if last.body.TextDelta? then last.body.delta else []
  }

  function ReasoningDeltas(es: seq<Event>): Bytes {
    if es == [] then []
    else
      var rest, last := es[..|es| - 1], es[|es| - 1];
      ReasoningDeltas(rest) + if last.body.ReasoningDelta? then last.body.delta else []
  }

  /** Where a draft was last set: the number of events up to and including the
      last one of the kind, or none. */
  function LastSet(es: seq<Event>, kind: Body -> bool): (n: nat)
    ensures n <= |es|
    ensures n > 0 ==> kind(es[n - 1].body)
    ensures forall i | n <= i < |es| :: !kind(es[i].body)
  {
    if es == [] then 0
    else if kind(es[|es| - 1].body) then |es|
    else LastSet(es[..|es| - 1], kind)
  }

  lemma LastSetStep(es: seq<Event>, kind: Body -> bool)
    requires es != []
    ensures LastSet(es, kind) ==
            if kind(es[|es| - 1].body) then |es| else LastSet(es[..|es| - 1], kind)
  {
  }

  lemma NothingAfter(start: Bytes, es: seq<Event>)
    ensures start + TextDeltas(es[|es|..]) == start && start + ReasoningDeltas(es[|es|..]) == start
  {
  }

  lemma BoundedTwice(a: Bytes, d: Bytes)
    ensures Bounded(Bounded(a) + d) == Bounded(a + d)
  {
    if |a| > MAX_DRAFT_BYTES {
      assert (Bounded(a) + d)[..MAX_DRAFT_BYTES] == (a + d)[..MAX_DRAFT_BYTES];
    }
  }

  lemma {:induction false} ClimbingIndex(s: State, es: seq<Event>)
    requires Within(s) && Climbing(s.index, es)
    ensures ApplyAll(s, es).index == if es == [] then s.index else es[|es| - 1].index
    decreases |es|
  {
    if es != [] {
      ClimbingIndex(Apply(s, es[0]), es[1..]);
    }
  }

  /** The last event alone: what it does to the drafts. */
  lemma LastStep(s: State, es: seq<Event>)
    requires Within(s) && Climbing(s.index, es) && es != []
    ensures
      var rest, last := es[..|es| - 1], es[|es| - 1];
      var t := ApplyAll(s, rest);
      ApplyAll(s, es) == Apply(t, last) && last.index > t.index && Climbing(s.index, rest)
  {
    var rest, last := es[..|es| - 1], es[|es| - 1];
    assert es == rest + [last];
    ApplyAllAppend(s, rest, [last]);
    assert ApplyAll(ApplyAll(s, rest), [last]) == Apply(ApplyAll(s, rest), last);
    ClimbingIndex(s, rest);
  }

  /** What the last event leaves in the text draft. */
  lemma TextStep(s: State, es: seq<Event>)
    requires Within(s) && Climbing(s.index, es) && es != []
    ensures
      var rest, b := es[..|es| - 1], es[|es| - 1].body;
      && Climbing(s.index, rest)
      && ApplyAll(s, es).text ==
         if TextBase(b) then Bounded(BaseOf(b))
         else if b.TextDelta? then Bounded(ApplyAll(s, rest).text + b.delta)
         else ApplyAll(s, rest).text
  {
    LastStep(s, es);
    hide ApplyAll, Climbing;
  }

  lemma ReasoningStep(s: State, es: seq<Event>)
    requires Within(s) && Climbing(s.index, es) && es != []
    ensures
      var rest, b := es[..|es| - 1], es[|es| - 1].body;
      && Climbing(s.index, rest)
      && ApplyAll(s, es).reasoning ==
         if Resets(b) then []
         else if b.ReasoningDelta? then Bounded(ApplyAll(s, rest).reasoning + b.delta)
         else ApplyAll(s, rest).reasoning
  {
    LastStep(s, es);
    hide ApplyAll, Climbing;
  }

  /** One more event on a base that stands before it. */
  lemma TextDeltasLast(start: Bytes, es: seq<Event>, n: nat)
    requires n < |es|
    ensures
      var rest, b := es[..|es| - 1], es[|es| - 1].body;
      start + TextDeltas(es[n..]) ==
      if b.TextDelta? then start + TextDeltas(rest[n..]) + b.delta else start + TextDeltas(rest[n..])
  {
    assert es[n..][..|es[n..]| - 1] == es[..|es| - 1][n..];
  }

  lemma ReasoningDeltasLast(start: Bytes, es: seq<Event>, n: nat)
    requires n < |es|
    ensures
      var rest, b := es[..|es| - 1], es[|es| - 1].body;
      start + ReasoningDeltas(es[n..]) ==
      if b.ReasoningDelta? then start + ReasoningDeltas(rest[n..]) + b.delta
      else start + ReasoningDeltas(rest[n..])
  {
    assert es[n..][..|es[n..]| - 1] == es[..|es| - 1][n..];
  }

  /** What the text draft would hold if it had no bound. */
  function TextSource(s: State, es: seq<Event>): Bytes {
    var n := LastSet(es, TextBase);
    (if n == 0 then s.text else BaseOf(es[n - 1].body)) + TextDeltas(es[n..])
  }

  function ReasoningSource(s: State, es: seq<Event>): Bytes {
    var n := LastSet(es, Resets);
    (if n == 0 then s.reasoning else []) + ReasoningDeltas(es[n..])
  }

  lemma TextSourceStep(s: State, es: seq<Event>)
    requires es != []
    ensures
      var rest, b := es[..|es| - 1], es[|es| - 1].body;
      TextSource(s, es) ==
      if TextBase(b) then BaseOf(b)
      else if b.TextDelta? then TextSource(s, rest) + b.delta else TextSource(s, rest)
  {
    hide TextDeltas, LastSet, TextBase, BaseOf;
    LastSetStep(es, TextBase);
    var n := LastSet(es, TextBase);
    var start := if n == 0 then s.text else BaseOf(es[n - 1].body);
    if TextBase(es[|es| - 1].body) {
      NothingAfter(start, es);
    } else {
      TextDeltasLast(start, es, n);
    }
  }

  lemma ReasoningSourceStep(s: State, es: seq<Event>)
    requires es != []
    ensures
      var rest, b := es[..|es| - 1], es[|es| - 1].body;
      ReasoningSource(s, es) ==
      if Resets(b) then []
      else if b.ReasoningDelta? then ReasoningSource(s, rest) + b.delta else ReasoningSource(s, rest)
  {
    hide ReasoningDeltas, LastSet, Resets;
    LastSetStep(es, Resets);
    var n := LastSet(es, Resets);
    var start := if n == 0 then s.reasoning else [];
    if Resets(es[|es| - 1].body) {
      NothingAfter(start, es);
    } else {
      ReasoningDeltasLast(start, es, n);
    }
  }

  lemma {:induction false} TextIs(s: State, es: seq<Event>)
    requires Within(s) && Climbing(s.index, es)
    ensures ApplyAll(s, es).text == Bounded(TextSource(s, es))
    decreases |es|
  {
    if es == [] {
      NothingAfter(s.text, es);
    } else {
      hide ApplyAll, Climbing, TextSource, Bounded, TextBase, BaseOf, Within;
      var rest, b := es[..|es| - 1], es[|es| - 1].body;
      TextStep(s, es);
      TextSourceStep(s, es);
      if !TextBase(b) {
        TextIs(s, rest);
        if b.TextDelta? {
          BoundedTwice(TextSource(s, rest), b.delta);
        }
      }
    }
  }

  lemma {:induction false} ReasoningIs(s: State, es: seq<Event>)
    requires Within(s) && Climbing(s.index, es)
    ensures ApplyAll(s, es).reasoning == Bounded(ReasoningSource(s, es))
    decreases |es|
  {
    if es == [] {
      NothingAfter(s.reasoning, es);
    } else {
      BoundedNothing();
      hide ApplyAll, Climbing, ReasoningSource, Bounded, Resets, Within;
      var rest, b := es[..|es| - 1], es[|es| - 1].body;
      ReasoningStep(s, es);
      ReasoningSourceStep(s, es);
      if !Resets(b) {
        ReasoningIs(s, rest);
        if b.ReasoningDelta? {
          BoundedTwice(ReasoningSource(s, rest), b.delta);
        }
      }
    }
  }

  lemma BoundedNothing()
    ensures Bounded([]) == []
  {
  }

  /** The running flag is set by the last event that speaks of it. */
  predicate Speaks(b: Body) { !(b.SessionOpened? || b.Notice? || b.Unset?) }

  predicate Ends(b: Body) { b.RunFinished? || b.RunFailed? }

  lemma RunningStep(s: State, es: seq<Event>)
    requires Within(s) && Climbing(s.index, es) && es != []
    ensures
      var rest, b := es[..|es| - 1], es[|es| - 1].body;
      && Climbing(s.index, rest)
      && ApplyAll(s, es).running == if Speaks(b) then !Ends(b) else ApplyAll(s, rest).running
  {
    LastStep(s, es);
    hide ApplyAll, Climbing;
  }

  lemma {:induction false} RunningIs(s: State, es: seq<Event>)
    requires Within(s) && Climbing(s.index, es)
    ensures
      var n := LastSet(es, Speaks);
      ApplyAll(s, es).running == if n == 0 then s.running else !Ends(es[n - 1].body)
    decreases |es|
  {
    if es != [] {
      hide ApplyAll, Climbing, Speaks, Ends, LastSet;
      RunningStep(s, es);
      LastSetStep(es, Speaks);
      if !Speaks(es[|es| - 1].body) {
        RunningIs(s, es[..|es| - 1]);
      }
    }
  }

  /** After any delivery, duplicates and all, each draft is the first 4 MiB of
      what it was last set to and every delta raised since, and a run is on unless
      the last event that speaks of it ended it. */
  lemma DraftsAre(s: State, es: seq<Event>)
    requires Within(s)
    ensures
      var r, t := Raising(s.index, es), ApplyAll(s, es);
      var n, k, m := LastSet(r, TextBase), LastSet(r, Resets), LastSet(r, Speaks);
      && t.text == Bounded((if n == 0 then s.text else BaseOf(r[n - 1].body)) + TextDeltas(r[n..]))
      && t.reasoning == Bounded((if k == 0 then s.reasoning else []) + ReasoningDeltas(r[k..]))
      && t.running == if m == 0 then s.running else !Ends(r[m - 1].body)
  {
    hide ApplyAll, Raising, LastSet, TextDeltas, ReasoningDeltas, Bounded, Climbing, TextBase, Resets, Speaks;
    OnlyRaisingCounts(s, es);
    RaisingClimbs(s.index, es);
    TextIs(s, Raising(s.index, es));
    ReasoningIs(s, Raising(s.index, es));
    RunningIs(s, Raising(s.index, es));
  }
}
