/**
 Byte-budgeted history pages: how much of a page is sent, and what paging
 through the whole transcript yields.
 */
module History {
  import opened Wrappers
  import opened Replay
  import opened Text
  import opened Transport

  /** The JSON text of a turn. */
  type Renderer = Turn -> string

  function Joined(turns: seq<Turn>, render: Renderer): string {
    if turns == [] then ""
    else
      var rest, last := turns[..|turns| - 1], turns[|turns| - 1];
      Joined(rest, render) + (if rest == [] then "" else ",") + render(last)
  }

  /** The JSON text of a history page. */
  function PageText(turns: seq<Turn>, head: nat, hasMore: bool, render: Renderer): string {
    "{\"turns\":[" + Joined(turns, render) + "],\"head_seq\":\"" + Decimal(head) + "\",\"has_more\":" +
    (if hasMore then "true" else "false") + "}"
  }

  /** Where the text of the i-th turn begins. */
  function Offset(turns: seq<Turn>, render: Renderer, i: nat): nat
    requires i <= |turns|
  {
    if i == 0 then |"{\"turns\":["| else Offset(turns, render, i - 1) + |render(turns[i - 1])| + 1
  }

  /** A piece stands in a text, after a comma unless it is the first one. */
  predicate Stands(text: string, from: int, piece: string, first: bool) {
    && 0 <= from <= from + |piece| <= |text| && text[from..from + |piece|] == piece
    && (first || (from > 0 && text[from - 1] == ','))
  }

  lemma StandsLonger(text: string, more: string, from: int, piece: string, first: bool)
    requires Stands(text, from, piece, first)
    ensures Stands(text + more, from, piece, first)
  {
    assert (text + more)[from..from + |piece|] == text[from..from + |piece|];
  }

  lemma StandsLast(text: string, piece: string)
    ensures Stands(text + "," + piece, |text| + 1, piece, false) && Stands(text + piece, |text|, piece, true)
  {
  }

  lemma {:induction false} JoinedHolds(turns: seq<Turn>, render: Renderer, i: nat)
    requires i < |turns|
    ensures
      var text, from := Joined(turns, render), Offset(turns, render, i) - |"{\"turns\":["|;
      && Stands(text, from, render(turns[i]), i == 0)
      && (i == |turns| - 1 ==> from + |render(turns[i])| == |text|)
  {
    hide Joined, Offset, Stands;
    var rest, last := turns[..|turns| - 1], turns[|turns| - 1];
    OffsetOfRest(turns, render, i);
    JoinedMore(turns, render);
    OffsetStarts(turns, render);
    if i < |rest| {
      JoinedHolds(rest, render, i);
      StandsLonger(
        Joined(rest, render), "," + render(last), Offset(rest, render, i) - |"{\"turns\":["|, render(turns[i]), i == 0);
      assert Joined(rest, render) + "," + render(last) == Joined(rest, render) + ("," + render(last));
    } else if rest != [] {
      JoinedHolds(rest, render, |rest| - 1);
      OffsetOfRest(turns, render, |rest| - 1);
      OffsetEnds(rest, render);
      OffsetStep(turns, render, |rest|);
      StandsLast(Joined(rest, render), render(last));
    } else {
      StandsLast("", render(last));
    }
  }

  lemma OffsetStep(turns: seq<Turn>, render: Renderer, i: nat)
    requires 0 < i <= |turns|
    ensures Offset(turns, render, i) == Offset(turns, render, i - 1) + |render(turns[i - 1])| + 1
  {
  }

  lemma JoinedMore(turns: seq<Turn>, render: Renderer)
    requires turns != []
    ensures
      var rest, last := turns[..|turns| - 1], turns[|turns| - 1];
      Joined(turns, render) == Joined(rest, render) + (if rest == [] then "" else ",") + render(last)
    ensures Joined([], render) == ""
  {
  }

  lemma OffsetStarts(turns: seq<Turn>, render: Renderer)
    ensures Offset(turns, render, 0) == |"{\"turns\":["|
  {
  }

  lemma {:induction false} OffsetOfRest(turns: seq<Turn>, render: Renderer, k: nat)
    requires k < |turns|
    ensures Offset(turns[..|turns| - 1], render, k) == Offset(turns, render, k)
    decreases k
  {
    if k > 0 {
      OffsetOfRest(turns, render, k - 1);
    }
  }

  /** The text of a page holds the turns' texts in order, one comma between two, and
      then the head and whether there is more. */
  lemma PageTextHolds(turns: seq<Turn>, head: nat, hasMore: bool, render: Renderer)
    ensures
      var text := PageText(turns, head, hasMore, render);
      var tail := "],\"head_seq\":\"" + Decimal(head) + "\",\"has_more\":" + (if hasMore then "true}" else "false}");
      var end := if turns == [] then |"{\"turns\":["| else Offset(turns, render, |turns|) - 1;
      && "{\"turns\":[" <= text
      && end <= |text| && text[end..] == tail
      && forall i: nat | i < |turns| ::
           var from := Offset(turns, render, i);
           && from + |render(turns[i])| <= |text| && text[from..from + |render(turns[i])|] == render(turns[i])
           && (i > 0 ==> from > 0 && text[from - 1] == ',')
  {
    hide Decimal, Joined, PageText, Offset;
    var start, joined := "{\"turns\":[", Joined(turns, render);
    var tail := "],\"head_seq\":\"" + Decimal(head) + "\",\"has_more\":" + (if hasMore then "true}" else "false}");
    var text := PageText(turns, head, hasMore, render);
    TextParts(turns, head, hasMore, render);
    OffsetEnds(turns, render);
    if turns != [] {
      JoinedHolds(turns, render, |turns| - 1);
    } else {
      assert joined == "" by {
        NothingJoined(render);
      }
    }
    forall i: nat | i < |turns|
      ensures
        var from := Offset(turns, render, i);
        && from + |render(turns[i])| <= |text| && text[from..from + |render(turns[i])|] == render(turns[i])
        && (i > 0 ==> from > 0 && text[from - 1] == ',')
    {
      JoinedHolds(turns, render, i);
      var from := Offset(turns, render, i) - |start|;
      Inside(start, joined, tail, from, from + |render(turns[i])|);
    }
  }

  lemma Inside(a: string, b: string, c: string, i: nat, j: nat)
    requires i <= j <= |b|
    ensures (a + b + c)[|a| + i..|a| + j] == b[i..j]
    ensures i > 0 ==> (a + b + c)[|a| + i - 1] == b[i - 1]
  {
  }

  lemma TextParts(turns: seq<Turn>, head: nat, hasMore: bool, render: Renderer)
    ensures
      var tail := "],\"head_seq\":\"" + Decimal(head) + "\",\"has_more\":" + (if hasMore then "true}" else "false}");
      PageText(turns, head, hasMore, render) == "{\"turns\":[" + Joined(turns, render) + tail
  {
    hide Decimal, Joined;
  }

  lemma OffsetEnds(turns: seq<Turn>, render: Renderer)
    ensures turns != [] ==>
      var n := |turns| - 1;
      Offset(turns, render, |turns|) == Offset(turns, render, n) + |render(turns[n])| + 1
  {
  }

  lemma NothingJoined(render: Renderer)
    ensures Joined([], render) == ""
  {
  }

  /** The size of a page that ends the history, the larger of the two. */
  function Size(turns: seq<Turn>, head: nat, render: Renderer): nat {
    |PageText(turns, head, false, render)|
  }

  datatype Payload = TooLarge | Sent(turns: seq<Turn>, hasMore: bool, text: string)

  /** How many turns of the page fit the budget, from the newest on. */
  function Fitting(turns: seq<Turn>, head: nat, budget: nat, render: Renderer, n: nat): (k: nat)
    requires n <= |turns|
    ensures n <= k <= |turns|
    decreases |turns| - n
  {
    if n < |turns| && Size(turns[..n + 1], head, render) <= budget
    then Fitting(turns, head, budget, render, n + 1) else n
  }

  function PayloadFor(page: Page, head: nat, budget: nat, render: Renderer): Payload {
    var k := Fitting(page.turns, head, budget, render, 0);
    if k == 0 && page.turns != [] then TooLarge
    else
      var more := if k < |page.turns| then true else page.hasMore;
      Sent(page.turns[..k], more, PageText(page.turns[..k], head, more, render))
  }

  lemma SizeStep(turns: seq<Turn>, head: nat, render: Renderer, n: nat)
    requires n < |turns|
    ensures Size(turns[..n + 1], head, render) ==
            Size(turns[..n], head, render) + |render(turns[n])| + if n > 0 then 1 else 0
  {
    assert turns[..n + 1][..n] == turns[..n];
  }

  lemma TextWithin(turns: seq<Turn>, head: nat, hasMore: bool, render: Renderer)
    ensures |PageText(turns, head, hasMore, render)| <= Size(turns, head, render)
  {
  }

  lemma {:induction false} FittingIs(turns: seq<Turn>, head: nat, budget: nat, render: Renderer, n: nat)
    requires n <= |turns| && (n == 0 || Size(turns[..n], head, render) <= budget)
    ensures
      var k := Fitting(turns, head, budget, render, n);
      && (k == 0 || Size(turns[..k], head, render) <= budget)
      && (k < |turns| ==> Size(turns[..k + 1], head, render) > budget)
    decreases |turns| - n
  {
    if n < |turns| && Size(turns[..n + 1], head, render) <= budget {
      FittingIs(turns, head, budget, render, n + 1);
    }
  }

  /** The source's loop: sizes are added up, not recomputed. */
  method HistoryPayload(page: Page, head: nat, budget: nat, render: Renderer) returns (payload: Payload)
    ensures payload == PayloadFor(page, head, budget, render)
    ensures payload.TooLarge? <==> page.turns != [] && Size(page.turns[..1], head, render) > budget
    ensures payload.Sent? ==>
      && payload.turns <= page.turns
      && (payload.turns == [] <==> page.turns == [])
      && (|payload.text| <= budget <==>
            payload.turns != [] || |PageText([], head, page.hasMore, render)| <= budget)
      && (payload.hasMore <==> payload.turns != page.turns || page.hasMore)
      && payload.text == PageText(payload.turns, head, payload.hasMore, render)
  {
    hide PageText;
    var turns := page.turns;
    var size := |PageText([], head, false, render)|;
    FittingIs(turns, head, budget, render, 0);
    var n := 0;
    while n < |turns|
      invariant 0 <= n <= |turns|
      invariant size == Size(turns[..n], head, render)
      invariant n == 0 || size <= budget
      invariant Fitting(turns, head, budget, render, 0) == Fitting(turns, head, budget, render, n)
    {
      var extra := |render(turns[n])| + if n > 0 then 1 else 0;
      SizeStep(turns, head, render, n);
      if size + extra > budget {
        if n == 0 {
          return TooLarge;
        }
        TextWithin(turns[..n], head, true, render);
        return Sent(turns[..n], true, PageText(turns[..n], head, true, render));
      }
      size := size + extra;
      n := n + 1;
    }
    assert turns[..n] == turns;
    TextWithin(turns, head, page.hasMore, render);
    return Sent(turns, page.hasMore, PageText(turns, head, page.hasMore, render));
  }

  /** Under the budget that callers pass, every page that is sent fits. */
  lemma PagesFit(page: Page, head: nat, render: Renderer)
    requires head <= MAX_INT
    ensures
      var payload := PayloadFor(page, head, MAX_ENVELOPE_BYTES, render);
      payload.Sent? ==> |payload.text| <= MAX_ENVELOPE_BYTES
  {
    FittingIs(page.turns, head, MAX_ENVELOPE_BYTES, render, 0);
    var k := Fitting(page.turns, head, MAX_ENVELOPE_BYTES, render, 0);
    var more := if k < |page.turns| then true else page.hasMore;
    TextWithin(page.turns[..k], head, more, render);
    EmptyPage(head, render);
    hide Size, PageText, Fitting;
  }

  lemma EmptyPage(head: nat, render: Renderer)
    requires head <= MAX_INT
    ensures Size([], head, render) <= MAX_ENVELOPE_BYTES
  {
    NineteenDigits(head);
    hide Decimal;
  }

  // ------------------------------------------------- paging

  predicate FitsAlone(t: Turn, head: nat, budget: nat, render: Renderer) {
    Size([t], head, render) <= budget
  }

  ghost predicate AllFit(ts: seq<Turn>, head: nat, budget: nat, render: Renderer) {
    forall t | t in ts :: FitsAlone(t, head, budget, render)
  }

  /** The newest `k` of the first `n` turns, newest first. */
  function NewestFirst(ts: seq<Turn>, n: nat, k: nat): (r: seq<Turn>)
    requires k <= n <= |ts|
    ensures |r| == k
  {
    Reversed(ts[n - k..n])
  }

  lemma NewestAt(ts: seq<Turn>, n: nat, k: nat, i: nat)
    requires i < k <= n <= |ts|
    ensures NewestFirst(ts, n, k)[i] == ts[n - 1 - i]
  {
  }

  lemma NewestPrefix(ts: seq<Turn>, n: nat, m: nat, k: nat)
    requires k <= m <= n <= |ts|
    ensures NewestFirst(ts, n, m)[..k] == NewestFirst(ts, n, k)
  {
    forall i: nat | i < k ensures NewestFirst(ts, n, m)[i] == NewestFirst(ts, n, k)[i] {
      NewestAt(ts, n, m, i);
      NewestAt(ts, n, k, i);
    }
    hide NewestFirst;
  }

  lemma NewestAndRest(ts: seq<Turn>, n: nat, k: nat)
    requires k <= n <= |ts|
    ensures NewestFirst(ts, n, k) + NewestFirst(ts, n - k, n - k) == NewestFirst(ts, n, n)
  {
    var whole, top, rest := NewestFirst(ts, n, n), NewestFirst(ts, n, k), NewestFirst(ts, n - k, n - k);
    forall i: nat | i < n ensures (top + rest)[i] == whole[i] {
      NewestAt(ts, n, n, i);
      if i < k {
        NewestAt(ts, n, k, i);
      } else {
        NewestAt(ts, n - k, n - k, i - k);
      }
    }
    hide NewestFirst;
  }

  /** What a payload holds, when `n` turns are left. */
  ghost predicate PageFacts(
    ts: seq<Turn>, n: nat, payload: Payload, head: nat, budget: nat, render: Renderer)
    requires n <= |ts|
  {
    && (payload.TooLarge? ==> n > 0 && !FitsAlone(ts[n - 1], head, budget, render))
    && (payload.Sent? ==>
          var k := |payload.turns|;
          && k <= n && (n > 0 ==> k > 0) && (payload.hasMore <==> k < n)
          && payload.turns == NewestFirst(ts, n, k)
          && AllFit(payload.turns, head, budget, render))
  }

  lemma ListIs(ts: seq<Turn>, after: int, limit: nat)
    requires Ascending(ts) && limit >= 1 && after >= 0
    ensures
      var n, page := OlderCount(ts, after), ListTurns(ts, after, limit);
      var m := |page.turns|;
      m <= n && (n > 0 ==> m > 0) && (page.hasMore <==> m < n) && page.turns == NewestFirst(ts, n, m)
  {
  }

  lemma PayloadIs(page: Page, head: nat, budget: nat, render: Renderer)
    ensures
      var payload := PayloadFor(page, head, budget, render);
      && (payload.TooLarge? ==> page.turns != [] && !FitsAlone(page.turns[0], head, budget, render))
      && (payload.Sent? ==>
            var k := |payload.turns|;
            && k <= |page.turns| && payload.turns == page.turns[..k] && (|page.turns| > 0 ==> k > 0)
            && (payload.hasMore <==> k < |page.turns| || page.hasMore)
            && AllFit(payload.turns, head, budget, render))
  {
    var turns := page.turns;
    var k := Fitting(turns, head, budget, render, 0);
    FittingIs(turns, head, budget, render, 0);
    if turns != [] {
      assert turns[..1] == [turns[0]];
    }
    forall t | t in turns[..k] ensures FitsAlone(t, head, budget, render) {
      var i :| 0 <= i < k && turns[i] == t;
      OneOfMany(turns, head, render, k, i);
    }
    hide Size, Fitting;
  }

  lemma PageIs(ts: seq<Turn>, after: int, limit: nat, head: nat, budget: nat, render: Renderer)
    requires Ascending(ts) && limit >= 1 && after >= 0
    ensures
      var n := OlderCount(ts, after);
      var payload := PayloadFor(ListTurns(ts, after, limit), head, budget, render);
      PageFacts(ts, n, payload, head, budget, render)
  {
    hide Decimal, Joined, PageText, Size, Fitting, PayloadFor, ListTurns, OlderCount, Reversed, NewestFirst, FitsAlone, AllFit, Ascending;
    var n, page := OlderCount(ts, after), ListTurns(ts, after, limit);
    var payload := PayloadFor(page, head, budget, render);
    var m := |page.turns|;
    ListIs(ts, after, limit);
    PayloadIs(page, head, budget, render);
    if payload.Sent? {
      NewestPrefix(ts, n, m, |payload.turns|);
    } else {
      NewestAt(ts, n, m, 0);
    }
  }

  lemma OlderCountAt(ts: seq<Turn>, i: nat)
    requires Ascending(ts) && i < |ts|
    ensures OlderCount(ts, ts[i].number) == i && ts[i].number > 0
  {
    assert i > 0 ==> ts[i - 1].number < ts[i].number;
  }

  /** A turn alone takes no more room than among others. */
  lemma {:induction false} OneOfMany(turns: seq<Turn>, head: nat, render: Renderer, k: nat, i: nat)
    requires i < k <= |turns|
    ensures Size([turns[i]], head, render) <= Size(turns[..k], head, render)
    decreases k
  {
    SizeStep(turns, head, render, k - 1);
    if i < k - 1 {
      OneOfMany(turns, head, render, k - 1, i);
    } else {
      SizeStep([turns[i]], head, render, 0);
      assert [turns[i]][..1] == [turns[i]] && [turns[i]][..0] == [];
      SizeAtLeast(turns[..i], head, render);
    }
  }

  lemma SizeAtLeast(turns: seq<Turn>, head: nat, render: Renderer)
    ensures Size([], head, render) <= Size(turns, head, render)
  {
  }

  /** Fetching page after page, each from the oldest turn returned so far, until
      no more are announced; none if a page is refused. */
  function FetchAll(ts: seq<Turn>, after: int, limit: nat, head: nat, budget: nat, render: Renderer)
    : Option<seq<Turn>>
    requires Ascending(ts) && limit >= 1 && after >= 0
    decreases OlderCount(ts, after)
  {
    var payload := PayloadFor(ListTurns(ts, after, limit), head, budget, render);
    if payload.TooLarge? then None
    else if !payload.hasMore then Some(payload.turns)
    else
      OldestReturned(ts, after, limit, head, budget, render);
      var oldest := payload.turns[|payload.turns| - 1];
      var rest := FetchAll(ts, oldest.number, limit, head, budget, render);
      if rest.None? then None else Some(payload.turns + rest.value)
  }

  lemma OldestReturned(ts: seq<Turn>, after: int, limit: nat, head: nat, budget: nat, render: Renderer)
    requires Ascending(ts) && limit >= 1 && after >= 0
    ensures
      var n := OlderCount(ts, after);
      var payload := PayloadFor(ListTurns(ts, after, limit), head, budget, render);
      payload.Sent? && payload.hasMore ==>
        var k := |payload.turns|;
        && 0 < k < n && payload.turns[k - 1] == ts[n - k]
        && ts[n - k].number > 0 && OlderCount(ts, ts[n - k].number) == n - k
  {
    hide Decimal, Joined, PageText, Size, Fitting, PayloadFor, ListTurns, OlderCount, Reversed, NewestFirst, FitsAlone, AllFit, Ascending;
    PageIs(ts, after, limit, head, budget, render);
    var n := OlderCount(ts, after);
    var payload := PayloadFor(ListTurns(ts, after, limit), head, budget, render);
    if payload.Sent? && payload.hasMore {
      var k := |payload.turns|;
      NewestAt(ts, n, k, k - 1);
      OlderCountAt(ts, n - k);
    }
  }

  /** One page more: what is fetched is the page and what is fetched below it. */
  lemma FetchStep(ts: seq<Turn>, after: int, limit: nat, head: nat, budget: nat, render: Renderer)
    requires Ascending(ts) && limit >= 1 && after >= 0
    ensures
      var n := OlderCount(ts, after);
      var payload := PayloadFor(ListTurns(ts, after, limit), head, budget, render);
      var k := if payload.Sent? then |payload.turns| else 0;
      && k <= n && PageFacts(ts, n, payload, head, budget, render)
      && (payload.Sent? && payload.hasMore ==> 0 < k < n && ts[n - k].number > 0)
      && FetchAll(ts, after, limit, head, budget, render) ==
         if payload.TooLarge? then None
         else if !payload.hasMore then Some(payload.turns)
         else
           var rest := FetchAll(ts, ts[n - k].number, limit, head, budget, render);
           if rest.None? then None else Some(payload.turns + rest.value)
  {
    hide Decimal, Joined, PageText, Size, Fitting, PayloadFor, ListTurns, OlderCount, Reversed, NewestFirst, FitsAlone, AllFit, Ascending;
    PageIs(ts, after, limit, head, budget, render);
    OldestReturned(ts, after, limit, head, budget, render);
  }

  lemma {:induction false} PagingYields(
    ts: seq<Turn>, after: int, limit: nat, head: nat, budget: nat, render: Renderer)
    requires Ascending(ts) && limit >= 1 && after >= 0
    ensures
      var n := OlderCount(ts, after);
      var all := NewestFirst(ts, n, n);
      FetchAll(ts, after, limit, head, budget, render) ==
      if AllFit(all, head, budget, render) then Some(all) else None
    decreases OlderCount(ts, after)
  {
    hide Decimal, Joined, PageText, Size, Fitting, PayloadFor, ListTurns, OlderCount, Reversed, NewestFirst, FitsAlone, Ascending, FetchAll;
    var n := OlderCount(ts, after);
    var payload := PayloadFor(ListTurns(ts, after, limit), head, budget, render);
    FetchStep(ts, after, limit, head, budget, render);
    if payload.TooLarge? {
      NewestAt(ts, n, n, 0);
    } else {
      var k := |payload.turns|;
      NewestAndRest(ts, n, k);
      AllFitAppend(payload.turns, NewestFirst(ts, n - k, n - k), head, budget, render);
      if payload.hasMore {
        OlderCountAt(ts, n - k);
        PagingYields(ts, ts[n - k].number, limit, head, budget, render);
      }
    }
  }

  /** Paging to the end terminates; it yields the whole transcript, newest
      first, with no gap and no repeat, if and only if every turn fits alone. */
  lemma PagingIsComplete(
    ts: seq<Turn>, after: int, limit: nat, head: nat, budget: nat, render: Renderer)
    requires Ascending(ts) && limit >= 1 && after >= 0
    ensures
      var n := OlderCount(ts, after);
      FetchAll(ts, after, limit, head, budget, render) ==
      if AllFit(ts[..n], head, budget, render) then Some(Reversed(ts[..n])) else None
  {
    var n := OlderCount(ts, after);
    PagingYields(ts, after, limit, head, budget, render);
    assert ts[n - n..n] == ts[..n];
    ReversedHolds(ts[..n]);
    hide FetchAll, OlderCount, Reversed, FitsAlone, Ascending;
  }

  lemma ReversedHolds(ts: seq<Turn>)
    ensures forall t :: t in Reversed(ts) <==> t in ts
  {
    forall t | t in ts ensures t in Reversed(ts) {
      var i :| 0 <= i < |ts| && ts[i] == t;
      assert Reversed(ts)[|ts| - 1 - i] == t;
    }
  }

  lemma AllFitAppend(a: seq<Turn>, b: seq<Turn>, head: nat, budget: nat, render: Renderer)
    ensures AllFit(a + b, head, budget, render) <==>
      AllFit(a, head, budget, render) && AllFit(b, head, budget, render)
  {
    assert forall t :: t in a + b <==> t in a || t in b;
  }
}
