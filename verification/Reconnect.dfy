/**
 A browser across drops and reconnects. The transcript grows at its newest end
 while connections come and go; a dropped connection loses whatever of its
 queue was not yet delivered.
 */
module Reconnect {
  import opened Wrappers
  import opened Replay

  /** `pending` is what a replay has still to enqueue. */
  datatype Connection = Connection(pending: seq<Frame>, queue: seq<Frame>)

  datatype World = World(
    transcript: seq<Turn>,
    head: int,
    received: set<(int, Message)>, // the browser's messages, by turn
    cursor: int,                   // the last Ready cursor it got
    connection: Option<Connection>)

  datatype Event =
    | Allocate(head: int)                                  // a run reserves a sequence number
    | AppendTurn(turn: Turn)                               // a run finishes
    | Connect
    | Sync(cursor: int, size: Sizer, first: bool, second: bool) // the browser asks for a replay
    | Enqueue                                              // the replay's next frame
    | Interject                                            // a frame from elsewhere
    | Deliver                                              // the browser gets the next frame
    | Drop

  predicate Enabled(w: World, e: Event) {
    match e
    case Allocate(head) => head >= w.head
    case AppendTurn(turn) => Newest(w.transcript) < turn.number <= w.head
    case Connect => w.connection.None?
    case Sync(cursor, _, _, _) =>
      && w.connection.Some? && w.connection.value.pending == [] && 0 <= cursor <= w.cursor
      && Ascending(w.transcript)
    case Enqueue => w.connection.Some? && w.connection.value.pending != []
    case Interject => w.connection.Some?
    case Deliver => w.connection.Some? && w.connection.value.queue != []
    case Drop => w.connection.Some?
  }

  function Enqueued(plan: Plan): seq<Frame> {
    match plan
    case Frames(messages, ready) => messages + [Ready(ready)]
    case Unavailable => [Other]
    case Resync => [Other]
  }

  function Next(w: World, e: Event): World
    requires Enabled(w, e)
  {
    match e
    case Allocate(head) => w.(head := head)
    case AppendTurn(turn) => w.(transcript := w.transcript + [turn])
    case Connect => w.(connection := Some(Connection([], [])))
    case Sync(cursor, size, first, second) =>
      var c := w.connection.value;
      w.(connection := Some(c.(pending := Enqueued(PlanFor(w.transcript, w.head, cursor, size, first, second)))))
    case Enqueue =>
      var c := w.connection.value;
      w.(connection := Some(Connection(c.pending[1..], c.queue + [c.pending[0]])))
    case Interject =>
      var c := w.connection.value;
      w.(connection := Some(c.(queue := c.queue + [Other])))
    case Deliver =>
      var c := w.connection.value;
      var rest := w.(connection := Some(c.(queue := c.queue[1..])));
      match c.queue[0] {
        case Final(turn, message) => rest.(received := w.received + {(turn, message)})
        case Ready(cursor) => rest.(cursor := cursor)
        case Other => rest
      }
    case Drop => w.(connection := None)
  }

  predicate Run(events: seq<Event>, worlds: seq<World>) {
    && |worlds| == |events| + 1
    && worlds[0] == World([], 0, {}, 0, None)
    && forall i | 0 <= i < |events| :: Enabled(worlds[i], events[i]) && worlds[i + 1] == Next(worlds[i], events[i])
  }

  // ------------------------------------------------- the frames of a replay

  /** A replay carries exactly the messages of its turns. */
  lemma {:induction false} FramesHold(ts: seq<Turn>, frame: Frame)
    ensures frame in AllFrames(ts) <==>
      exists t, m | t in ts && m in t.messages :: frame == Final(t.number, m)
  {
    if ts != [] {
      var rest, last := ts[..|ts| - 1], ts[|ts| - 1];
      assert ts == rest + [last];
      FramesHold(rest, frame);
      assert frame in FramesOf(last) <==> exists m | m in last.messages :: frame == Final(last.number, m) by {
        forall i | 0 <= i < |last.messages| ensures FramesOf(last)[i] == Final(last.number, last.messages[i]) {
        }
        if m :| m in last.messages && frame == Final(last.number, m) {
          var i :| 0 <= i < |last.messages| && last.messages[i] == m;
          assert FramesOf(last)[i] == frame;
        }
      }
    }
  }

  /** Its frames come oldest turn first. */
  lemma {:induction false} FramesAscend(ts: seq<Turn>, i: nat, j: nat)
    requires Ascending(ts) && i < j < |AllFrames(ts)|
    ensures AllFrames(ts)[i].Final? && AllFrames(ts)[j].Final?
    ensures AllFrames(ts)[i].turn <= AllFrames(ts)[j].turn
  {
    var rest, last := ts[..|ts| - 1], ts[|ts| - 1];
    var older := AllFrames(rest);
    if j < |older| {
      FramesAscend(rest, i, j);
    } else if i < |older| {
      FramesHold(rest, older[i]);
      var t, m :| t in rest && m in t.messages && older[i] == Final(t.number, m);
    }
  }

  lemma MissedIs(ts: seq<Turn>, cursor: int, t: Turn)
    requires Ascending(ts) && cursor >= 0
    ensures t in Missed(ts, cursor) <==> t in ts && t.number > cursor
  {
    var n := OlderCount(ts, cursor + 1);
    if t in ts && t.number > cursor {
      var i :| 0 <= i < |ts| && ts[i] == t;
      assert Missed(ts, cursor)[i - n] == t;
    }
  }

  // ------------------------------------------------- what is owed

  /** Every message of every turn up to `cursor` is among those received or in
      the frames `line`. */
  ghost predicate Covered(ts: seq<Turn>, cursor: int, received: set<(int, Message)>, line: seq<Frame>) {
    forall t, m | t in ts && t.number <= cursor && m in t.messages ::
      (t.number, m) in received || Final(t.number, m) in line
  }

  /** Wherever a Ready stands in line, what it announces was received or stands
      before it. */
  ghost predicate Announced(ts: seq<Turn>, received: set<(int, Message)>, line: seq<Frame>) {
    forall i | 0 <= i < |line| && line[i].Ready? ::
      line[i].cursor <= Newest(ts) && line[i].cursor >= 0 && Covered(ts, line[i].cursor, received, line[..i])
  }

  function Line(w: World): seq<Frame> {
    if w.connection.None? then [] else w.connection.value.queue + w.connection.value.pending
  }

  /** The Ready frames in line rise, from the browser's cursor on. */
  ghost predicate Rising(cursor: int, line: seq<Frame>) {
    && (forall i | 0 <= i < |line| && line[i].Ready? :: cursor <= line[i].cursor)
    && forall i, j | 0 <= i < j < |line| && line[i].Ready? && line[j].Ready? :: line[i].cursor <= line[j].cursor
  }

  ghost predicate Inv(w: World) {
    && Rising(w.cursor, Line(w))
    && Ascending(w.transcript) && Newest(w.transcript) <= w.head
    && 0 <= w.cursor <= Newest(w.transcript)
    && Covered(w.transcript, w.cursor, w.received, [])
    && Announced(w.transcript, w.received, Line(w))
  }

  /** The frames a replay puts in line announce no more than they carry. */
  lemma PlanCovers(w: World, e: Event)
    requires Inv(w) && e.Sync? && Enabled(w, e)
    ensures
      var added := Enqueued(PlanFor(w.transcript, w.head, e.cursor, e.size, e.first, e.second));
      forall before: seq<Frame> :: Announced(w.transcript, w.received, before) ==>
        Announced(w.transcript, w.received, before + added)
  {
    var ts := w.transcript;
    var plan := PlanFor(ts, w.head, e.cursor, e.size, e.first, e.second);
    var added := Enqueued(plan);
    forall before: seq<Frame> | Announced(ts, w.received, before)
      ensures Announced(ts, w.received, before + added)
    {
      var line := before + added;
      forall i | 0 <= i < |line| && line[i].Ready?
        ensures 0 <= line[i].cursor <= Newest(ts) && Covered(ts, line[i].cursor, w.received, line[..i])
      {
        if i < |before| {
          assert line[..i] == before[..i];
        } else {
          if i < |line| - 1 {
            assert line[i] == added[i - |before|] && line[i] in AllFrames(Missed(ts, e.cursor));
            FramesHold(Missed(ts, e.cursor), line[i]);
          }
          assert line[..i] == before + plan.messages;
          forall t, m | t in ts && t.number <= line[i].cursor && m in t.messages
            ensures (t.number, m) in w.received || Final(t.number, m) in line[..i]
          {
            if t.number > w.cursor {
              MissedIs(ts, e.cursor, t);
              FramesHold(Missed(ts, e.cursor), Final(t.number, m));
            }
          }
        }
      }
    }
  }

  /** A replay's Ready is no lower than those before it. */
  lemma PlanRises(w: World, e: Event)
    requires Inv(w) && e.Sync? && Enabled(w, e)
    ensures
      var line := Line(w) + Enqueued(PlanFor(w.transcript, w.head, e.cursor, e.size, e.first, e.second));
      Rising(w.cursor, line)
  {
    var ts, line := w.transcript, Line(w);
    var plan := PlanFor(ts, w.head, e.cursor, e.size, e.first, e.second);
    var added := Enqueued(plan);
    ReadyIs(ts, w.head, e.cursor, e.size, e.first, e.second);
    assert ts != [] ==> ts[|ts| - 1] in ts;
    if plan.Frames? {
      forall i | 0 <= i < |plan.messages| ensures !added[i].Ready? {
        assert plan.messages[i] in AllFrames(Missed(ts, e.cursor));
        FramesHold(Missed(ts, e.cursor), plan.messages[i]);
      }
      hide PlanFor;
      assert w.cursor <= plan.ready;
      forall i | 0 <= i < |line + added| && (line + added)[i].Ready?
        ensures i < |line| || (i == |line + added| - 1 && (line + added)[i] == Ready(plan.ready))
      {
      }
    }
  }

  lemma DeliverRises(cursor: int, line: seq<Frame>)
    requires line != [] && Rising(cursor, line)
    ensures Rising(if line[0].Ready? then line[0].cursor else cursor, line[1..])
    ensures line[0].Ready? ==> line[0].cursor >= cursor
  {
    assert forall i | 0 <= i < |line[1..]| :: line[1..][i] == line[i + 1];
  }

  lemma InterjectRises(cursor: int, line: seq<Frame>, n: nat)
    requires n <= |line| && Rising(cursor, line)
    ensures Rising(cursor, line[..n] + [Other] + line[n..])
  {
    var line' := line[..n] + [Other] + line[n..];
    assert forall i | 0 <= i < |line'| && line'[i].Ready? ::
      (i < n && line'[i] == line[i]) || (i > n && line'[i] == line[i - 1]);
  }

  lemma DeliverKeeps(ts: seq<Turn>, received: set<(int, Message)>, line: seq<Frame>)
    requires line != [] && Announced(ts, received, line)
    ensures
      var now := if line[0].Final? then received + {(line[0].turn, line[0].message)} else received;
      Announced(ts, now, line[1..])
  {
    var now := if line[0].Final? then received + {(line[0].turn, line[0].message)} else received;
    var rest := line[1..];
    forall i | 0 <= i < |rest| && rest[i].Ready?
      ensures 0 <= rest[i].cursor <= Newest(ts) && Covered(ts, rest[i].cursor, now, rest[..i])
    {
      assert line[i + 1] == rest[i] && line[..i + 1] == [line[0]] + rest[..i];
    }
  }

  lemma AppendKeeps(w: World, turn: Turn)
    requires Inv(w) && Enabled(w, AppendTurn(turn))
    ensures Inv(Next(w, AppendTurn(turn)))
  {
    var ts := w.transcript + [turn];
    assert forall i | 0 <= i < |w.transcript| :: w.transcript[i].number <= Newest(w.transcript);
  }

  lemma StepKeeps(w: World, e: Event)
    requires Inv(w) && Enabled(w, e)
    ensures Inv(Next(w, e))
  {
    var w' := Next(w, e);
    match e {
      case Allocate(_) =>
      case AppendTurn(turn) => AppendKeeps(w, turn);
      case Connect =>
      case Sync(_, _, _, _) =>
        PlanCovers(w, e);
        PlanRises(w, e);
        assert Line(w) == w.connection.value.queue + [] == w.connection.value.queue;
      case Enqueue =>
        var c := w.connection.value;
        assert Line(w') == Line(w);
      case Interject => InterjectKeeps(w);
      case Deliver =>
        DeliverKeeps(w.transcript, w.received, Line(w));
        DeliverRises(w.cursor, Line(w));
        assert Line(w)[0] == w.connection.value.queue[0] && Line(w') == Line(w)[1..];
        assert Line(w)[..0] == [];
      case Drop =>
    }
  }

  lemma InterjectKeeps(w: World)
    requires Inv(w) && Enabled(w, Interject)
    ensures Inv(Next(w, Interject))
  {
    hide Rising;
    var w' := Next(w, Interject);
    var c, n := w.connection.value, |w.connection.value.queue|;
    var line, line' := Line(w), Line(w');
    assert line' == line[..n] + [Other] + line[n..];
    InterjectRises(w.cursor, line, n);
    forall i | 0 <= i < |line'| && line'[i].Ready?
      ensures 0 <= line'[i].cursor <= Newest(w.transcript)
      ensures Covered(w.transcript, line'[i].cursor, w.received, line'[..i])
    {
      if i < n {
        assert line'[i] == line[i] && line'[..i] == line[..i];
      } else {
        assert line'[i] == line[i - 1];
        assert line'[..i] == line[..n] + [Other] + line[n..i - 1] && line[..i - 1] == line[..n] + line[n..i - 1];
        assert forall f | f in line[..i - 1] :: f in line'[..i];
      }
    }
  }

  /** At every point of every run the browser has received every message of
      every turn up to the last Ready cursor it got. */
  lemma {:induction false} NothingIsSkipped(events: seq<Event>, worlds: seq<World>, i: nat)
    requires Run(events, worlds) && i < |worlds|
    ensures Inv(worlds[i])
    ensures forall t, m | t in worlds[i].transcript && t.number <= worlds[i].cursor && m in t.messages ::
      (t.number, m) in worlds[i].received
  {
    if i > 0 {
      NothingIsSkipped(events, worlds, i - 1);
      StepKeeps(worlds[i - 1], events[i - 1]);
    }
  }

  lemma CursorStep(w: World, e: Event)
    requires Inv(w) && Enabled(w, e)
    ensures Next(w, e).cursor >= w.cursor
  {
    if e.Deliver? {
      assert Line(w)[0] == w.connection.value.queue[0];
    }
  }

  /** The browser's cursor never falls. */
  lemma {:induction false} CursorNeverFalls(events: seq<Event>, worlds: seq<World>, i: nat, j: nat)
    requires Run(events, worlds) && i <= j < |worlds|
    ensures worlds[i].cursor <= worlds[j].cursor
  {
    if i < j {
      CursorNeverFalls(events, worlds, i, j - 1);
      NothingIsSkipped(events, worlds, j - 1);
      CursorStep(worlds[j - 1], events[j - 1]);
    }
  }

  /** A Ready in line stays there until it is delivered or the connection drops. */
  lemma ReadyStep(w: World, e: Event, ready: int)
    requires Inv(w) && Enabled(w, e) && !e.Drop?
    requires Ready(ready) in Line(w) || w.cursor >= ready
    ensures Ready(ready) in Line(Next(w, e)) || Next(w, e).cursor >= ready
  {
    CursorStep(w, e);
    var w' := Next(w, e);
    if e.Enqueue? {
      assert Line(w') == Line(w);
    } else if e.Deliver? {
      assert Line(w) == [w.connection.value.queue[0]] + Line(w');
    }
  }

  lemma StepOf(events: seq<Event>, worlds: seq<World>, i: nat)
    requires Run(events, worlds) && i + 1 < |worlds|
    ensures i < |events| && Enabled(worlds[i], events[i]) && worlds[i + 1] == Next(worlds[i], events[i])
    ensures events[i].Sync? ==> Ascending(worlds[i].transcript) && events[i].cursor >= 0
  {
  }

  lemma SyncPlans(w: World, e: Event)
    requires e.Sync? && Enabled(w, e)
    ensures
      var plan := PlanFor(w.transcript, w.head, e.cursor, e.size, e.first, e.second);
      plan.Frames? ==> Ready(plan.ready) in Line(Next(w, e))
  {
    hide PlanFor;
    var plan := PlanFor(w.transcript, w.head, e.cursor, e.size, e.first, e.second);
    if plan.Frames? {
      assert Enqueued(plan)[|plan.messages|] == Ready(plan.ready);
    }
  }

  lemma {:induction false} ReadyStands(events: seq<Event>, worlds: seq<World>, i: nat, k: nat)
    requires Run(events, worlds) && i < k < |worlds| && events[i].Sync?
    requires forall m | i < m < k :: !events[m].Drop?
    ensures
      var w, e := worlds[i], events[i];
      Ascending(w.transcript) && e.cursor >= 0 &&
      var plan := PlanFor(w.transcript, w.head, e.cursor, e.size, e.first, e.second);
      plan.Frames? ==> Ready(plan.ready) in Line(worlds[k]) || worlds[k].cursor >= plan.ready
  {
    hide PlanFor, Run, Next, Line, Enabled;
    StepOf(events, worlds, i);
    StepOf(events, worlds, k - 1);
    var w, e := worlds[i], events[i];
    var plan := PlanFor(w.transcript, w.head, e.cursor, e.size, e.first, e.second);
    if plan.Frames? {
      if k == i + 1 {
        SyncPlans(w, e);
      } else {
        ReadyStands(events, worlds, i, k - 1);
        NothingIsSkipped(events, worlds, k - 1);
        ReadyStep(worlds[k - 1], events[k - 1], plan.ready);
      }
    }
  }

  /** Once a replay has been delivered to its end on its connection, the browser's
      cursor is, from then on, at least the number of every turn that the
      transcript held when it asked. */
  lemma ReplayArrives(events: seq<Event>, worlds: seq<World>, i: nat, k: nat, j: nat)
    requires Run(events, worlds) && i < k <= j < |worlds| && events[i].Sync?
    requires forall m | i < m < k :: !events[m].Drop?
    requires
      var w, e := worlds[i], events[i];
      Ascending(w.transcript) && e.cursor >= 0 &&
      var plan := PlanFor(w.transcript, w.head, e.cursor, e.size, e.first, e.second);
      plan.Frames? && Ready(plan.ready) !in Line(worlds[k])
    ensures forall t | t in worlds[i].transcript :: t.number <= worlds[j].cursor
  {
    var w, e := worlds[i], events[i];
    hide PlanFor, Run, Line;
    ReadyStands(events, worlds, i, k);
    ReadyIs(w.transcript, w.head, e.cursor, e.size, e.first, e.second);
    CursorNeverFalls(events, worlds, k, j);
  }

  /** A run from here. */
  predicate Continues(w: World, events: seq<Event>, worlds: seq<World>) {
    && |worlds| == |events| + 1 && worlds[0] == w
    && forall i | 0 <= i < |events| :: Enabled(worlds[i], events[i]) && worlds[i + 1] == Next(worlds[i], events[i])
  }

  lemma OneFirst(w: World, e: Event, events: seq<Event>, worlds: seq<World>)
    requires Enabled(w, e) && Continues(Next(w, e), events, worlds)
    ensures Continues(w, [e] + events, [w] + worlds)
  {
    hide Enabled, Next;
    forall i | 0 <= i < |events| + 1
      ensures Enabled(([w] + worlds)[i], ([e] + events)[i])
      ensures ([w] + worlds)[i + 1] == Next(([w] + worlds)[i], ([e] + events)[i])
    {
      if i > 0 {
        assert ([w] + worlds)[i] == worlds[i - 1] && ([e] + events)[i] == events[i - 1];
      }
    }
  }

  /** What is in line can be delivered to the end. */
  lemma {:induction false} Drains(w: World, ready: int) returns (events: seq<Event>, worlds: seq<World>)
    requires Inv(w) && w.connection.Some? && (Ready(ready) in Line(w) || w.cursor >= ready)
    ensures Continues(w, events, worlds) && forall e | e in events :: e.Enqueue? || e.Deliver?
    ensures
      var last := worlds[|events|];
      && Inv(last) && last.connection.Some? && Line(last) == [] && last.transcript == w.transcript
      && last.cursor >= ready
    decreases 2 * |w.connection.value.pending| + |w.connection.value.queue|
  {
    hide Inv, Next, Enabled, Line, Continues;
    var c := w.connection.value;
    if c.pending == [] && c.queue == [] {
      events, worlds := [], [w];
      NothingInLine(w);
    } else {
      var e := if c.pending != [] then Enqueue else Deliver;
      StepMoves(w, e);
      StepKeeps(w, e);
      ReadyStep(w, e, ready);
      events, worlds := Drains(Next(w, e), ready);
      OneFirst(w, e, events, worlds);
      StartsThere(Next(w, e), events, worlds);
      events, worlds := [e] + events, [w] + worlds;
    }
  }

  lemma StartsThere(w: World, events: seq<Event>, worlds: seq<World>)
    requires Continues(w, events, worlds)
    ensures |worlds| == |events| + 1
  {
  }

  lemma NothingInLine(w: World)
    requires w.connection.Some? && w.connection.value == Connection([], [])
    ensures Line(w) == [] && Continues(w, [], [w])
  {
  }

  lemma StepMoves(w: World, e: Event)
    requires w.connection.Some?
    requires if e.Enqueue? then w.connection.value.pending != [] else e.Deliver? && w.connection.value.queue != []
    ensures Enabled(w, e)
    ensures Next(w, e).connection.Some? && Next(w, e).transcript == w.transcript
    ensures
      var c, c' := w.connection.value, Next(w, e).connection.value;
      2 * |c'.pending| + |c'.queue| < 2 * |c.pending| + |c.queue|
  {
  }

  /** A connected browser can catch up at any point of any run: where its plan is a
      replay, asking from its cursor and taking what comes, it has every message of
      the transcript and a cursor no lower than any turn. */
  lemma CatchesUp(all: seq<Event>, worlds: seq<World>, i: nat, size: Sizer, first: bool, second: bool)
    returns (events: seq<Event>, after: seq<World>)
    requires Run(all, worlds) && i < |worlds|
    requires worlds[i].connection.Some? && worlds[i].connection.value.pending == []
    requires Ascending(worlds[i].transcript) && worlds[i].cursor >= 0
    requires PlanFor(worlds[i].transcript, worlds[i].head, worlds[i].cursor, size, first, second).Frames?
    ensures Continues(worlds[i], [Sync(worlds[i].cursor, size, first, second)] + events, after)
    ensures forall e | e in events :: e.Enqueue? || e.Deliver?
    ensures |after| > 0
    ensures
      var w, last := worlds[i], after[|after| - 1];
      && last.transcript == w.transcript
      && forall t | t in w.transcript ::
           t.number <= last.cursor && forall m | m in t.messages :: (t.number, m) in last.received
  {
    var w, e := worlds[i], Sync(worlds[i].cursor, size, first, second);
    NothingIsSkipped(all, worlds, i);
    assert Enabled(w, e);
    StepKeeps(w, e);
    SyncPlans(w, e);
    ReadyIs(w.transcript, w.head, w.cursor, size, first, second);
    var ready := PlanFor(w.transcript, w.head, w.cursor, size, first, second).ready;
    var rest: seq<World>;
    events, rest := Drains(Next(w, e), ready);
    OneFirst(w, e, events, rest);
    after := [w] + rest;
    assert after[|after| - 1] == rest[|events|];
    InvCovers(rest[|events|]);
    hide PlanFor, Continues, Inv, Enabled, Line, Run;
  }

  lemma InvCovers(w: World)
    requires Inv(w)
    ensures forall t, m | t in w.transcript && t.number <= w.cursor && m in t.messages :: (t.number, m) in w.received
  {
  }

  function Appended(events: seq<Event>): seq<Turn> {
    if events == [] then []
    else
      var last := events[|events| - 1];
      Appended(events[..|events| - 1]) + if last.AppendTurn? then [last.turn] else []
  }

  /** The transcript is what was appended, whatever else happened. */
  lemma {:induction false} TranscriptIs(events: seq<Event>, worlds: seq<World>, i: nat)
    requires Run(events, worlds) && i <= |events|
    ensures i < |worlds| && worlds[i].transcript == Appended(events[..i])
  {
    if i > 0 {
      TranscriptIs(events, worlds, i - 1);
      StepOf(events, worlds, i - 1);
      assert events[..i][..i - 1] == events[..i - 1];
    }
  }

  /** A replay that reaches Ready carries exactly the messages above the cursor;
      missing more than a page of turns makes it a resync, unless a page could not
      be had. */
  lemma ReplayIsExact(ts: seq<Turn>, head: int, cursor: int, size: Sizer, first: bool, second: bool)
    requires Ascending(ts) && cursor >= 0
    ensures
      var plan := PlanFor(ts, head, cursor, size, first, second);
      && (plan.Frames? ==> forall frame :: frame in plan.messages <==>
            exists t, m | t in ts && t.number > cursor && m in t.messages :: frame == Final(t.number, m))
      && (|Missed(ts, cursor)| > MAX_REPLAY_TURNS ==>
            plan == if first && (second || cursor > head) then Resync else Unavailable)
  {
    var missed := Missed(ts, cursor);
    forall frame
      ensures frame in AllFrames(missed) <==>
        exists t, m | t in ts && t.number > cursor && m in t.messages :: frame == Final(t.number, m)
    {
      FramesHold(missed, frame);
      forall t ensures t in missed <==> t in ts && t.number > cursor {
        MissedIs(ts, cursor, t);
      }
    }
  }
}
