/**
 Replay of missed turns to a reconnecting browser, and what a browser holds
 after any run of drops and reconnects.
 */
module Replay {
  import opened Wrappers
  import opened Transport

  const MAX_REPLAY_TURNS := 500

  datatype Message = Message(ordinal: int, text: string)

  datatype Turn = Turn(number: int, messages: seq<Message>)

  /** The durable transcript, oldest first. */
  predicate Ascending(ts: seq<Turn>) {
    && (forall i | 0 <= i < |ts| :: ts[i].number > 0)
    && (forall i, j | 0 <= i < j < |ts| :: ts[i].number < ts[j].number)
  }

  datatype Page = Page(turns: seq<Turn>, hasMore: bool)

  /** How many turns are older than a sequence number; zero means no bound. */
  function OlderCount(ts: seq<Turn>, after: int): (n: nat)
    requires Ascending(ts)
    ensures n <= |ts|
    ensures after == 0 ==> n == |ts|
    ensures after != 0 ==> forall i | 0 <= i < |ts| :: ts[i].number < after <==> i < n
  {
    if after == 0 then |ts|
    else if ts == [] then 0
    else if ts[|ts| - 1].number < after then |ts|
    else OlderCount(ts[..|ts| - 1], after)
  }

  function Reversed(ts: seq<Turn>): (r: seq<Turn>)
    ensures |r| == |ts| && forall i | 0 <= i < |ts| :: r[i] == ts[|ts| - 1 - i]
  {
    seq(|ts|, i requires 0 <= i < |ts| => ts[|ts| - 1 - i])
  }

  /** A page of the transcript, newest first. */
  function ListTurns(ts: seq<Turn>, after: int, limit: nat): Page
    requires Ascending(ts)
  {
    var n := OlderCount(ts, after);
    var from := if n > limit then n - limit else 0;
    Page(Reversed(ts[from..n]), from > 0)
  }

  /** The turns above the cursor, oldest first. */
  function Missed(ts: seq<Turn>, cursor: int): (m: seq<Turn>)
    requires Ascending(ts) && cursor >= 0
    ensures m == ts[OlderCount(ts, cursor + 1)..]
  {
    ts[OlderCount(ts, cursor + 1)..]
  }

  datatype Frame = Final(turn: int, message: Message) | Ready(cursor: int) | Other

  function FramesOf(turn: Turn): seq<Frame> {
    seq(|turn.messages|, i requires 0 <= i < |turn.messages| => Final(turn.number, turn.messages[i]))
  }

  function AllFrames(ts: seq<Turn>): seq<Frame> {
    if ts == [] then [] else AllFrames(ts[..|ts| - 1]) + FramesOf(ts[|ts| - 1])
  }

  /** What encoding a message frame comes to: its size, or a failure. */
  type Sizer = Frame -> Option<nat>

  /** The encoded size of frames, or none if one of them fails to encode. */
  function TotalSize(frames: seq<Frame>, size: Sizer): Option<nat> {
    if frames == [] then Some(0)
    else
      var rest, last := TotalSize(frames[..|frames| - 1], size), size(frames[|frames| - 1]);
      if rest.None? || last.None? then None else Some(rest.value + last.value)
  }

  predicate Fits(frames: seq<Frame>, size: Sizer) {
    && TotalSize(frames, size).Some? && TotalSize(frames, size).value <= MAX_QUEUE_BYTES / 2
    && |frames| <= MAX_QUEUE_FRAMES / 2
  }

  function Newest(ts: seq<Turn>): int {
    if ts == [] then 0 else ts[|ts| - 1].number
  }

  datatype Plan =
    | Unavailable                              // the transcript could not be read
    | Resync                                   // start over from the head
    | Frames(messages: seq<Frame>, ready: int) // message frames, then Ready

  /** The decision to replay, in one formula. `first` and `second` are whether
      the two transcript reads succeed. */
  function PlanFor(ts: seq<Turn>, head: int, cursor: int, size: Sizer, first: bool, second: bool): Plan
    requires Ascending(ts) && cursor >= 0
  {
    var missed := Missed(ts, cursor);
    if !first then Unavailable
    else if cursor > head then Resync
    else if |missed| >= MAX_REPLAY_TURNS && |ts| > MAX_REPLAY_TURNS && !second then Unavailable
    else if |missed| > MAX_REPLAY_TURNS || !Fits(AllFrames(missed), size) then Resync
    else Frames(AllFrames(missed), if Newest(ts) > cursor then Newest(ts) else cursor)
  }

  /** Exactly when a replay reaches Ready, in terms of the turns above the cursor,
      which are the last ones from `n` on: no more than a page of them are missed, and
      their frames fit. Where exactly a page is missed and there are older turns, the
      second read has to succeed. */
  lemma ReplayedExactly(
    ts: seq<Turn>, head: int, cursor: int, size: Sizer, first: bool, second: bool, n: nat)
    requires Ascending(ts) && cursor >= 0 && n <= |ts|
    requires forall i | 0 <= i < |ts| :: ts[i].number > cursor <==> n <= i
    ensures
      var plan, frames, missed := PlanFor(ts, head, cursor, size, first, second), AllFrames(ts[n..]), |ts| - n;
      && (plan.Frames? <==>
            && first && cursor <= head && missed <= 500 && (missed == 500 && n > 0 ==> second)
            && |frames| <= MAX_QUEUE_FRAMES / 2
            && TotalSize(frames, size).Some? && TotalSize(frames, size).value <= MAX_QUEUE_BYTES / 2)
      && (plan.Frames? ==> plan.messages == frames)
      && (plan.Unavailable? <==> !first || (cursor <= head && missed >= 500 && |ts| > 500 && !second))
  {
    hide AllFrames, TotalSize;
    var m := OlderCount(ts, cursor + 1);
    assert forall i | 0 <= i < |ts| :: ts[i].number > cursor <==> m <= i;
    assert m < |ts| ==> (ts[m].number > cursor <==> n <= m);
    assert n < |ts| ==> (ts[n].number > cursor <==> m <= n);
    assert m == n;
  }

  /** Where the frames of the i-th turn begin. */
  function FramesBefore(ts: seq<Turn>, i: nat): nat
    requires i <= |ts|
  {
    if i == 0 then 0 else FramesBefore(ts, i - 1) + |ts[i - 1].messages|
  }

  /** The frames are the turns' messages, turn by turn and each in its order. */
  lemma {:induction false} FramesStand(ts: seq<Turn>, i: nat, j: nat)
    requires i < |ts| && j < |ts[i].messages|
    ensures
      var k := FramesBefore(ts, i) + j;
      k < |AllFrames(ts)| && AllFrames(ts)[k] == Final(ts[i].number, ts[i].messages[j])
  {
    var rest := ts[..|ts| - 1];
    FramesCount(rest);
    FramesCountPrefix(ts, |rest|, i);
    if i < |rest| {
      FramesStand(rest, i, j);
    } else {
      FramesCountPrefix(ts, |rest|, |rest|);
    }
  }

  lemma {:induction false} FramesCountPrefix(ts: seq<Turn>, n: nat, i: nat)
    requires i <= n <= |ts|
    ensures FramesBefore(ts[..n], i) == FramesBefore(ts, i)
    decreases i
  {
    if i > 0 {
      FramesCountPrefix(ts, n, i - 1);
    }
  }

  lemma {:induction false} FramesCount(ts: seq<Turn>)
    ensures |AllFrames(ts)| == FramesBefore(ts, |ts|)
  {
    if ts != [] {
      FramesCount(ts[..|ts| - 1]);
      FramesCountPrefix(ts, |ts| - 1, |ts| - 1);
    }
  }

  /** What a replay announces is the cursor or the number of a turn, and no less
      than the cursor and the number of every turn. */
  lemma ReadyIs(ts: seq<Turn>, head: int, cursor: int, size: Sizer, first: bool, second: bool)
    requires Ascending(ts) && cursor >= 0
    ensures
      var plan := PlanFor(ts, head, cursor, size, first, second);
      plan.Frames? ==>
        && plan.ready >= cursor && (forall t | t in ts :: t.number <= plan.ready)
        && (plan.ready == cursor || exists t :: t in ts && t.number == plan.ready)
  {
    hide Fits, AllFrames, Missed;
    if ts != [] {
      assert ts[|ts| - 1] in ts;
    }
  }

  lemma {:induction false} AllFramesAppend(a: seq<Turn>, t: Turn)
    ensures AllFrames(a + [t]) == AllFrames(a) + FramesOf(t)
  {
    assert (a + [t])[..|a|] == a;
  }

  lemma {:induction false} TooMuchStays(frames: seq<Frame>, n: nat, size: Sizer)
    requires n <= |frames| && !Fits(frames[..n], size)
    ensures !Fits(frames, size)
    decreases |frames|
  {
    if n < |frames| {
      var rest := frames[..|frames| - 1];
      assert rest[..n] == frames[..n];
      TooMuchStays(rest, n, size);
    } else {
      assert frames[..n] == frames;
    }
  }

  lemma {:induction false} AllFramesPrefix(ts: seq<Turn>, n: nat)
    requires n <= |ts|
    ensures AllFrames(ts[..n]) <= AllFrames(ts)
    decreases |ts|
  {
    if n < |ts| {
      assert ts[..|ts| - 1][..n] == ts[..n];
      AllFramesPrefix(ts[..|ts| - 1], n);
    } else {
      assert ts[..n] == ts;
    }
  }

  /** Builds the replay from pages of the transcript. */
  method PlanReplay(ts: seq<Turn>, head: int, cursor: int, size: Sizer, first: bool, second: bool)
    returns (plan: Plan)
    requires Ascending(ts) && cursor >= 0 && Newest(ts) <= head
    ensures plan == PlanFor(ts, head, cursor, size, first, second)
  {
    hide Fits, AllFrames, OlderCount, Ascending;
    if !first {
      return Unavailable;
    }
    var page := ListTurns(ts, 0, MAX_REPLAY_TURNS);
    if cursor > head {
      return Resync;
    }
    var turns := page.turns;
    PageHoldsMissed(ts, cursor);
    if |turns| == MAX_REPLAY_TURNS && turns[|turns| - 1].number > cursor && page.hasMore {
      if !second {
        return Unavailable;
      }
      var older := ListTurns(ts, turns[|turns| - 1].number, 1);
      ProbeMeans(ts, cursor);
      if |older.turns| > 0 && older.turns[0].number > cursor {
        return Resync;
      }
    }
    var completed := cursor;
    if |turns| > 0 && turns[0].number > completed {
      completed := turns[0].number;
    }
    var fits, frames := CollectFrames(turns, cursor, size, Missed(ts, cursor));
    return if fits then Frames(frames, completed) else Resync;
  }

  /** The outer loop: the missed turns of a page, oldest first. */
  method CollectFrames(turns: seq<Turn>, cursor: int, size: Sizer, ghost missed: seq<Turn>)
    returns (fits: bool, frames: seq<Frame>)
    requires |missed| <= |turns|
    requires forall i | 0 <= i < |turns| :: turns[i].number > cursor <==> i < |missed|
    requires forall i | 0 <= i < |missed| :: turns[i] == missed[|missed| - 1 - i]
    ensures fits <==> Fits(AllFrames(missed), size)
    ensures fits ==> frames == AllFrames(missed)
  {
    var bytes := 0;
    frames := [];
    var i := |turns|;
    ghost var k := 0;
    hide AllFrames, TotalSize, FramesOf;
    FramesBegin(missed, size);
    while i > 0
      invariant 0 <= i <= |turns| && k == if i < |missed| then |missed| - i else 0
      invariant frames == AllFrames(missed[..k])
      invariant TotalSize(frames, size) == Some(bytes) && bytes <= MAX_QUEUE_BYTES / 2
      invariant |frames| <= MAX_QUEUE_FRAMES / 2
    {
      i := i - 1;
      var turn := turns[i];
      if turn.number > cursor {
        assert turn == missed[k];
        FramesStep(missed, k);
        fits, frames, bytes := AddTurn(frames, bytes, turn, size, AllFrames(missed));
        if !fits {
          return;
        }
        k := k + 1;
      }
    }
    assert missed[..k] == missed;
    fits := true;
  }

  lemma FramesBegin(missed: seq<Turn>, size: Sizer)
    ensures AllFrames(missed[..0]) == [] && TotalSize([], size) == Some(0)
  {
  }

  lemma FramesStep(missed: seq<Turn>, k: nat)
    requires k < |missed|
    ensures AllFrames(missed[..k + 1]) == AllFrames(missed[..k]) + FramesOf(missed[k])
    ensures AllFrames(missed[..k + 1]) <= AllFrames(missed)
  {
    hide AllFrames, FramesOf;
    OneTurnMore(missed, k);
    AllFramesAppend(missed[..k], missed[k]);
    AllFramesPrefix(missed, k + 1);
  }

  lemma OneTurnMore(ts: seq<Turn>, k: nat)
    requires k < |ts|
    ensures ts[..k + 1] == ts[..k] + [ts[k]]
  {
  }

  /** The inner loop: one turn's messages, or a stop when they no longer fit. */
  method AddTurn(frames: seq<Frame>, bytes: nat, turn: Turn, size: Sizer, ghost all: seq<Frame>)
    returns (fits: bool, frames': seq<Frame>, bytes': nat)
    requires TotalSize(frames, size) == Some(bytes) && bytes <= MAX_QUEUE_BYTES / 2
    requires |frames| <= MAX_QUEUE_FRAMES / 2
    requires frames + FramesOf(turn) <= all
    ensures fits ==>
      && frames' == frames + FramesOf(turn)
      && TotalSize(frames', size) == Some(bytes') && bytes' <= MAX_QUEUE_BYTES / 2
      && |frames'| <= MAX_QUEUE_FRAMES / 2
    ensures !fits ==> !Fits(all, size)
  {
    hide TotalSize, FramesOf, Fits;
    frames', bytes' := frames, bytes;
    ghost var target := frames + FramesOf(turn);
    FramesAre(turn);
    var j := 0;
    while j < |turn.messages|
      invariant 0 <= j <= |turn.messages|
      invariant frames' == target[..|frames| + j]
      invariant TotalSize(frames', size) == Some(bytes') && bytes' <= MAX_QUEUE_BYTES / 2
      invariant |frames'| <= MAX_QUEUE_FRAMES / 2
    {
      var frame := Final(turn.number, turn.messages[j]);
      PrefixMore(target, |frames| + j, frame);
      TotalMore(frames', frame, size);
      var data := size(frame);
      if data.None? || bytes' + data.value > MAX_QUEUE_BYTES / 2 || |frames'| >= MAX_QUEUE_FRAMES / 2 {
        PrefixOfAll(target, all, |frames| + j + 1);
        TooMuchStays(all, |frames| + j + 1, size);
        return false, frames', bytes';
      }
      bytes' := bytes' + data.value;
      frames' := frames' + [frame];
      j := j + 1;
    }
    assert target[..|frames| + j] == target;
    return true, frames', bytes';
  }

  lemma FramesAre(turn: Turn)
    ensures |FramesOf(turn)| == |turn.messages|
    ensures forall j | 0 <= j < |turn.messages| :: FramesOf(turn)[j] == Final(turn.number, turn.messages[j])
  {
  }

  lemma PrefixMore(target: seq<Frame>, n: nat, frame: Frame)
    requires n < |target| && target[n] == frame
    ensures target[..n + 1] == target[..n] + [frame]
  {
  }

  lemma PrefixOfAll(target: seq<Frame>, all: seq<Frame>, n: nat)
    requires n <= |target| && target <= all
    ensures all[..n] == target[..n]
  {
  }

  lemma TotalSnoc(frames: seq<Frame>, frame: Frame, size: Sizer)
    ensures TotalSize(frames + [frame], size) ==
      var rest, last := TotalSize(frames, size), size(frame);
      if rest.None? || last.None? then None else Some(rest.value + last.value)
  {
    var more := frames + [frame];
    assert more[..|more| - 1] == frames && more[|more| - 1] == frame;
  }

  /** One frame more: its size is added, and it fits exactly within the limits. */
  lemma TotalMore(frames: seq<Frame>, frame: Frame, size: Sizer)
    requires TotalSize(frames, size).Some?
    ensures
      var data, total := size(frame), TotalSize(frames, size).value;
      if data.None? || total + data.value > MAX_QUEUE_BYTES / 2 || |frames| >= MAX_QUEUE_FRAMES / 2
      then !Fits(frames + [frame], size)
      else TotalSize(frames + [frame], size) == Some(total + data.value)
  {
    hide TotalSize;
    TotalSnoc(frames, frame, size);
  }

  /** The first page is the newest end of the transcript, so unless more turns
      are missed than fit on a page, the missed turns are its newest ones. */
  lemma PageHoldsMissed(ts: seq<Turn>, cursor: int)
    requires Ascending(ts) && cursor >= 0
    ensures
      var turns, missed := ListTurns(ts, 0, MAX_REPLAY_TURNS).turns, Missed(ts, cursor);
      && (|turns| == if |ts| < MAX_REPLAY_TURNS then |ts| else MAX_REPLAY_TURNS)
      && (ListTurns(ts, 0, MAX_REPLAY_TURNS).hasMore <==> |ts| > MAX_REPLAY_TURNS)
      && (forall i | 0 <= i < |turns| :: turns[i] == ts[|ts| - 1 - i])
      && (forall i | 0 <= i < |turns| :: turns[i].number > cursor <==> i < |missed|)
      && (forall i | 0 <= i < |turns| && i < |missed| :: turns[i] == missed[|missed| - 1 - i])
  {
    hide Missed, ListTurns, Reversed, OlderCount;
    NewestPage(ts, MAX_REPLAY_TURNS);
  }

  lemma NewestPage(ts: seq<Turn>, limit: nat)
    requires Ascending(ts)
    ensures
      var page := ListTurns(ts, 0, limit);
      && (|page.turns| == if |ts| < limit then |ts| else limit)
      && (page.hasMore <==> |ts| > limit)
      && (forall i | 0 <= i < |page.turns| :: page.turns[i] == ts[|ts| - 1 - i])
  {
    hide Ascending;
  }

  lemma ProbeMeans(ts: seq<Turn>, cursor: int)
    requires Ascending(ts) && cursor >= 0 && |ts| > MAX_REPLAY_TURNS
    ensures
      var oldest := ts[|ts| - MAX_REPLAY_TURNS];
      var older := ListTurns(ts, oldest.number, 1).turns;
      |older| == 1 && (older[0].number > cursor <==> |Missed(ts, cursor)| > MAX_REPLAY_TURNS)
  {
    var k := |ts| - MAX_REPLAY_TURNS;
    assert ts[k - 1].number < ts[k].number;
    assert OlderCount(ts, ts[k].number) == k;
  }
}
