/**
 The bounded model/tool loop. Models, planner, tools and cancellation are
 oracles, asked at most once per turn and position; a run is judged by the
 messages it adds and the steps it takes, whatever they answer.
 */
module Engine {
  import opened Wrappers
  import opened LoopSafety
  import opened Trace

  const DEFAULT_MAX_TURNS := 96

  datatype Plan = Refused | Eligible(refs: seq<string>)

  /** What one call of a model streams, and its response unless it fails. */
  datatype Completion = Completion(deltas: seq<string>, response: Option<Response>)

  datatype ToolOutcome = Ran(output: string) | Failed(message: string)

  /** Where a run looks whether it was cancelled. */
  datatype Point =
    | BeforeAttempt(attempt: nat) | AfterAttempt(attempt: nat)
    | BeforeCall(position: nat) | InCall(position: nat) | AfterCall(position: nat)

  datatype World = World(
    plan: nat -> Plan,
    fits: (nat, nat) -> bool,
    complete: (nat, nat) -> Completion,
    tool: (nat, nat) -> ToolOutcome,
    refusal: Call -> Option<string>,
    cancelled: (nat, Point) -> bool,
    digest: Digest)

  datatype ModelFailure = Unplanned | AttemptLimit | AllFailed

  datatype Outcome =
    | Answered(incomplete: bool)
    | Stopped(stop: Stop)
    | ModelError(failure: ModelFailure)
    | Cancelled

  datatype RunResult = RunResult(messages: seq<Message>, steps: seq<Step>, outcome: Outcome)

  // ------------------------------------------------- the world along a trace

  /** The attempts of one turn. */
  function AttemptsIn(steps: seq<Step>, turn: nat): nat {
    if steps == [] then 0
    else
      var last := steps[|steps| - 1];
      AttemptsIn(steps[..|steps| - 1], turn) + if last.ModelStarted? && last.turn == turn then 1 else 0
  }

  /** The calls of one turn that were executed. */
  function CallsIn(steps: seq<Step>, turn: nat): nat {
    if steps == [] then 0
    else
      var last := steps[|steps| - 1];
      CallsIn(steps[..|steps| - 1], turn) + if last.ToolStarted? && last.turn == turn then 1 else 0
  }

  /** The points a step takes the run past: before and after every attempt of a
      model that the context fits, before one that it does not fit, and before and
      after every call. */
  function PointsOf(w: World, steps: seq<Step>, s: Step): seq<(nat, Point)> {
    match s
    case ModelStarted(turn, _) =>
      var k := AttemptsIn(steps, turn);
      [(turn, BeforeAttempt(k))] + if w.fits(turn, k) then [(turn, AfterAttempt(k))] else []
    case ToolStarted(turn, _) =>
      var i := CallsIn(steps, turn);
      [(turn, BeforeCall(i)), (turn, AfterCall(i))]
    case _ => []
  }

  /** The points that a run with these steps has come past. */
  function Passed(w: World, steps: seq<Step>): seq<(nat, Point)> {
    if steps == [] then []
    else
      var rest := steps[..|steps| - 1];
      Passed(w, rest) + PointsOf(w, rest, steps[|steps| - 1])
  }

  /** The point that a run with these steps comes to next. */
  ghost predicate ComesTo(w: World, steps: seq<Step>, p: (nat, Point)) {
    && steps != []
    && var last := steps[|steps| - 1];
    && p.0 == last.turn
    && match p.1
       case BeforeAttempt(k) =>
         && (last.TurnBegan? || last.FitFailed? || last.ProviderFailed?)
         && w.plan(p.0).Eligible? && k == AttemptsIn(steps, p.0) < |w.plan(p.0).refs|
       case BeforeCall(i) =>
         && (last.ModelStarted? || last.Delta? || last.ToolFinished?)
         && var heard := Heard(w, steps);
         && heard != [] && i == CallsIn(steps, p.0) < |heard[|heard| - 1].calls|
       case _ => false
  }

  /** The points of a run: those it has come past, and perhaps the next one. */
  ghost predicate Reached(w: World, steps: seq<Step>, reached: seq<(nat, Point)>) {
    || reached == Passed(w, steps)
    || (reached != [] && reached[..|reached| - 1] == Passed(w, steps) && ComesTo(w, steps, reached[|reached| - 1]))
  }

  /** The run is cut exactly when it is cancelled at the last of its points, and it
      is not cancelled before. */
  ghost predicate CutAt(w: World, reached: seq<(nat, Point)>, cut: bool) {
    && (forall i | 0 <= i < |reached| - 1 :: !w.cancelled(reached[i].0, reached[i].1))
    && (cut <==> reached != [] && w.cancelled(reached[|reached| - 1].0, reached[|reached| - 1].1))
  }

  ghost predicate Uncancelled(w: World, steps: seq<Step>) {
    forall p | p in Passed(w, steps) :: !w.cancelled(p.0, p.1)
  }

  /** The response of an attempt, if one came. */
  function ResponseAt(w: World, turn: nat, k: nat): Option<Response> {
    if w.fits(turn, k) && !w.cancelled(turn, AfterAttempt(k)) then w.complete(turn, k).response else None
  }

  /** What a step adds to the responses heard before it, or takes from them. */
  function HeardWith(w: World, steps: seq<Step>, heard: seq<Response>, s: Step): seq<Response> {
    match s
    case ModelStarted(turn, _) =>
      var response := ResponseAt(w, turn, AttemptsIn(steps, turn));
      if response.Some? then heard + [response.value] else heard
    case Discarded(_) => if heard == [] then [] else heard[..|heard| - 1]
    case _ => heard
  }

  /** The responses that came and were not thrown away. */
  function Heard(w: World, steps: seq<Step>): seq<Response> {
    if steps == [] then []
    else
      var rest := steps[..|steps| - 1];
      HeardWith(w, rest, Heard(w, rest), steps[|steps| - 1])
  }

  /** The last of these responses has no call, and a reply without text or media. */
  predicate LastSilent(heard: seq<Response>) {
    heard != [] && heard[|heard| - 1].calls == [] && !heard[|heard| - 1].speaks
  }

  /** Only silent responses are thrown away. */
  ghost predicate DiscardsSilent(w: World, steps: seq<Step>) {
    forall i: nat | i < |steps| && steps[i].Discarded? :: LastSilent(Heard(w, steps[..i]))
  }

  function Voices(ms: seq<Message>): seq<Response> {
    if ms == [] then []
    else Voices(ms[..|ms| - 1]) + if ms[|ms| - 1].Said? then [ms[|ms| - 1].response] else []
  }

  lemma WorldStep(w: World, steps: seq<Step>, s: Step)
    ensures
      var more := steps + [s];
      && Passed(w, more) == Passed(w, steps) + PointsOf(w, steps, s)
      && Heard(w, more) == HeardWith(w, steps, Heard(w, steps), s)
      && (forall t :: AttemptsIn(more, t) == AttemptsIn(steps, t) + if s.ModelStarted? && s.turn == t then 1 else 0)
      && (forall t :: CallsIn(more, t) == CallsIn(steps, t) + if s.ToolStarted? && s.turn == t then 1 else 0)
  {
    hide PointsOf, HeardWith;
    assert (steps + [s])[..|steps|] == steps;
  }

  lemma DiscardStep(w: World, steps: seq<Step>, s: Step)
    requires DiscardsSilent(w, steps)
    requires s.Discarded? ==> LastSilent(Heard(w, steps))
    ensures DiscardsSilent(w, steps + [s])
  {
    hide Heard, LastSilent;
    var more := steps + [s];
    forall i: nat | i < |more| && more[i].Discarded? ensures LastSilent(Heard(w, more[..i])) {
      if i < |steps| {
        assert more[..i] == steps[..i];
      } else {
        assert more[..i] == steps;
      }
    }
  }

  /** A step that comes past no point and brings no response. */
  ghost predicate Unheard(w: World, before: seq<Step>, steps: seq<Step>) {
    && Passed(w, steps) == Passed(w, before) && Heard(w, steps) == Heard(w, before)
    && (DiscardsSilent(w, before) ==> DiscardsSilent(w, steps))
    && forall t :: AttemptsIn(steps, t) == AttemptsIn(before, t) && CallsIn(steps, t) == CallsIn(before, t)
  }

  lemma UnheardStep(w: World, steps: seq<Step>, s: Step)
    requires !s.ModelStarted? && !s.ToolStarted? && !s.Discarded?
    ensures Unheard(w, steps, steps + [s])
  {
    WorldStep(w, steps, s);
    if DiscardsSilent(w, steps) {
      DiscardStep(w, steps, s);
    }
  }

  lemma StartStep(w: World, steps: seq<Step>, turn: nat, ref: string)
    ensures
      var more, k := steps + [ModelStarted(turn, ref)], AttemptsIn(steps, turn);
      && Passed(w, more) ==
         Passed(w, steps) + [(turn, BeforeAttempt(k))] + (if w.fits(turn, k) then [(turn, AfterAttempt(k))] else [])
      && Heard(w, more) ==
         (if ResponseAt(w, turn, k).Some? then Heard(w, steps) + [ResponseAt(w, turn, k).value] else Heard(w, steps))
      && (DiscardsSilent(w, steps) ==> DiscardsSilent(w, more))
      && AttemptsIn(more, turn) == k + 1
      && (forall t | t != turn :: AttemptsIn(more, t) == AttemptsIn(steps, t))
      && forall t :: CallsIn(more, t) == CallsIn(steps, t)
  {
    WorldStep(w, steps, ModelStarted(turn, ref));
    if DiscardsSilent(w, steps) {
      DiscardStep(w, steps, ModelStarted(turn, ref));
    }
  }

  /** A call that starts and finishes. */
  lemma CallStep(w: World, steps: seq<Step>, turn: nat, call: Call, output: string, failed: bool)
    ensures
      var more, i := steps + [ToolStarted(turn, call)] + [ToolFinished(turn, call, output, failed)], CallsIn(steps, turn);
      && Passed(w, more) == Passed(w, steps) + [(turn, BeforeCall(i)), (turn, AfterCall(i))]
      && Heard(w, more) == Heard(w, steps)
      && (DiscardsSilent(w, steps) ==> DiscardsSilent(w, more))
      && CallsIn(more, turn) == i + 1
      && (forall t | t != turn :: CallsIn(more, t) == CallsIn(steps, t))
      && forall t :: AttemptsIn(more, t) == AttemptsIn(steps, t)
  {
    var started := steps + [ToolStarted(turn, call)];
    WorldStep(w, steps, ToolStarted(turn, call));
    UnheardStep(w, started, ToolFinished(turn, call, output, failed));
    if DiscardsSilent(w, steps) {
      DiscardStep(w, steps, ToolStarted(turn, call));
    }
  }

  lemma ReachedAll(w: World, steps: seq<Step>)
    requires Uncancelled(w, steps)
    ensures Reached(w, steps, Passed(w, steps)) && CutAt(w, Passed(w, steps), false)
  {
    hide Passed;
  }

  lemma ReachedNext(w: World, steps: seq<Step>, p: (nat, Point))
    requires Uncancelled(w, steps) && ComesTo(w, steps, p)
    ensures
      var reached := Passed(w, steps) + [p];
      Reached(w, steps, reached) && CutAt(w, reached, w.cancelled(p.0, p.1))
  {
    hide Passed, ComesTo;
    assert (Passed(w, steps) + [p])[..|Passed(w, steps)|] == Passed(w, steps);
  }

  lemma ReachedLast(w: World, before: seq<Step>, steps: seq<Step>, points: seq<(nat, Point)>, p: (nat, Point))
    requires Uncancelled(w, before) && Passed(w, steps) == Passed(w, before) + points + [p]
    requires (forall q | q in points :: !w.cancelled(q.0, q.1)) && w.cancelled(p.0, p.1)
    ensures Reached(w, steps, Passed(w, steps)) && CutAt(w, Passed(w, steps), true)
  {
    hide Passed;
    var reached := Passed(w, steps);
    forall i | 0 <= i < |reached| - 1 ensures !w.cancelled(reached[i].0, reached[i].1) {
      assert reached[i] in Passed(w, before) || reached[i] in points;
    }
  }

  /** A run that was not cut was not cancelled anywhere. */
  lemma UncutIsUncancelled(w: World, steps: seq<Step>, reached: seq<(nat, Point)>)
    requires Reached(w, steps, reached) && CutAt(w, reached, false)
    ensures Uncancelled(w, steps)
  {
    hide Passed, ComesTo;
    forall p | p in Passed(w, steps) ensures !w.cancelled(p.0, p.1) {
      var i :| 0 <= i < |Passed(w, steps)| && Passed(w, steps)[i] == p;
      assert reached[i] == p;
    }
  }

  lemma {:induction false} VoicesAnswers(more: seq<Message>, earlier: seq<Message>, calls: seq<Call>)
    requires AnsweredTo(more, earlier, calls)
    ensures Voices(more) == Voices(earlier)
    decreases |more|
  {
    if |more| == |earlier| {
      assert more[..|earlier|] == more;
    } else {
      var n := |more| - 1;
      assert Answers(more[|earlier| + (n - |earlier|)], calls[n - |earlier|]);
      assert more[..n][..|earlier|] == earlier;
      VoicesAnswers(more[..n], earlier, calls);
    }
  }

  lemma VoicesMore(ms: seq<Message>, m: Message)
    ensures Voices(ms + [m]) == if m.Said? then Voices(ms) + [m.response] else Voices(ms)
  {
    assert (ms + [m])[..|ms|] == ms;
  }

  // ------------------------------------------------- budgets

  /** Model turns shared by the runs of one session. */
  class TurnBudget {
    const limit: nat
    var used: nat

    constructor (limit: int)
      ensures this.limit == (if limit <= 0 then DEFAULT_MAX_TURNS else limit) && used == 0
    {
      this.limit := if limit <= 0 then DEFAULT_MAX_TURNS else limit;
      used := 0;
    }

    function Remaining(): (n: nat)
      reads this
      ensures n == 0 <==> used >= limit
      ensures used <= limit ==> used + n == limit
    {
      if limit > used then limit - used else 0
    }

    method Next() returns (final: bool)
      modifies this
      ensures used == old(used) + 1
      ensures final <==> used == limit
    {
      final := Remaining() == 1;
      used := used + 1;
    }
  }

  /** Provider failures of one run; a limit of zero counts none. */
  class FailureBudget {
    const limit: nat
    var failures: seq<string>

    ghost predicate Counts(steps: seq<Step>)
      reads this
    {
      limit > 0 ==> |failures| == Failures(steps)
    }

    ghost predicate Open()
      reads this
    {
      limit > 0 ==> |failures| < limit
    }

    constructor (limit: nat)
      ensures this.limit == limit && failures == []
    {
      this.limit := limit;
      failures := [];
    }
  }

  // ------------------------------------------------- one model turn

  datatype Reply = Completed(response: Response) | Failure(failure: ModelFailure) | Interrupted

  predicate FailsAt(w: World, turn: nat, k: nat) {
    !w.fits(turn, k) || w.complete(turn, k).response.None?
  }

  /** The first `tried` models were asked: all but the last failed, and the
      reply is the last one's response, or that every model of the plan failed. */
  ghost predicate InOrder(w: World, turn: nat, refs: seq<string>, tried: nat, reply: Reply) {
    && tried <= |refs|
    && (forall j: nat | j + 1 < tried :: FailsAt(w, turn, j))
    && (reply.Completed? ==>
          && tried > 0 && w.fits(turn, tried - 1)
          && w.complete(turn, tried - 1).response == Some(reply.response))
    && (reply == Failure(AllFailed) ==> tried == |refs| && forall j: nat | j < tried :: FailsAt(w, turn, j))
  }

  /** Same run, only model steps added. */
  ghost predicate ModelOnly(d: Digest, bound: Option<Bound>, before: seq<Step>, steps: seq<Step>) {
    && Good(d, bound, steps)
    && Recorded(d, steps) == Recorded(d, before) && Reports(steps) == Reports(before)
    && Turns(steps) == Turns(before) && Idle(steps) == Idle(before) && Final(steps) == Final(before)
  }

  /** One step more of a model. */
  lemma OnlyMore(d: Digest, bound: Option<Bound>, before: seq<Step>, steps: seq<Step>, s: Step)
    requires ModelOnly(d, bound, before, steps)
    requires s.ModelStarted? || s.Delta? || s.FitFailed? || s.ProviderFailed?
    ensures
      var more := steps + [s];
      && ModelOnly(d, bound, before, more)
      && Failures(more) == Failures(steps) + (if s.ProviderFailed? then 1 else 0)
      && Tried(more) == (if s.ModelStarted? then Tried(steps) + [s.ref] else Tried(steps))
  {
    hide Good, Recorded, Reports, Turns, Idle, Failures, Tried, Final;
    PlainStep(d, bound, steps, s);
  }

  lemma OnlyBefore(d: Digest, bound: Option<Bound>, before: seq<Step>)
    requires Good(d, bound, before)
    ensures ModelOnly(d, bound, before, before)
  {
  }

  method EmitDeltas(
    w: World, turn: nat, ref: string, deltas: seq<string>, ghost origin: seq<Step>, before: seq<Step>,
    ghost bound: Option<Bound>)
    returns (steps: seq<Step>)
    requires ModelOnly(w.digest, bound, origin, before)
    ensures ModelOnly(w.digest, bound, origin, steps)
    ensures Failures(steps) == Failures(before) && Tried(steps) == Tried(before)
    ensures steps == before + DeltaSteps(turn, ref, deltas)
  {
    hide ModelOnly, Failures, Tried;
    steps := before;
    for i := 0 to |deltas|
      invariant ModelOnly(w.digest, bound, origin, steps)
      invariant Failures(steps) == Failures(before) && Tried(steps) == Tried(before)
      invariant steps == before + DeltaSteps(turn, ref, deltas[..i])
    {
      OnlyMore(w.digest, bound, origin, steps, Delta(turn, ref, deltas[i]));
      assert DeltaSteps(turn, ref, deltas[..i + 1]) == DeltaSteps(turn, ref, deltas[..i]) + [Delta(turn, ref, deltas[i])];
      steps := steps + [Delta(turn, ref, deltas[i])];
    }
    assert deltas[..|deltas|] == deltas;
  }

  function DeltaSteps(turn: nat, ref: string, deltas: seq<string>): seq<Step> {
    seq(|deltas|, i requires 0 <= i < |deltas| => Delta(turn, ref, deltas[i]))
  }

  /** The steps of one attempt. A provider's failure is told unless the run was
      cancelled meanwhile. */
  function AttemptSteps(w: World, turn: nat, ref: string, k: nat): seq<Step> {
    [ModelStarted(turn, ref)] +
    if !w.fits(turn, k) then [FitFailed(turn, ref)]
    else
      DeltaSteps(turn, ref, w.complete(turn, k).deltas) +
      if w.cancelled(turn, AfterAttempt(k)) || w.complete(turn, k).response.Some? then [] else [ProviderFailed(turn, ref)]
  }

  lemma {:induction false} DeltasUnheard(w: World, steps: seq<Step>, turn: nat, ref: string, deltas: seq<string>)
    ensures Unheard(w, steps, steps + DeltaSteps(turn, ref, deltas))
    decreases |deltas|
  {
    hide Passed, Heard, DiscardsSilent, AttemptsIn, CallsIn;
    if deltas == [] {
      assert steps + DeltaSteps(turn, ref, deltas) == steps;
    } else {
      var n := |deltas| - 1;
      DeltasUnheard(w, steps, turn, ref, deltas[..n]);
      var most := steps + DeltaSteps(turn, ref, deltas[..n]);
      UnheardStep(w, most, Delta(turn, ref, deltas[n]));
      assert steps + DeltaSteps(turn, ref, deltas) == most + [Delta(turn, ref, deltas[n])];
    }
  }

  /** What an attempt comes past, and the response it brings. */
  lemma AttemptTold(w: World, steps: seq<Step>, turn: nat, ref: string)
    ensures
      var k := AttemptsIn(steps, turn);
      var more := steps + AttemptSteps(w, turn, ref, k);
      && Passed(w, more) ==
         Passed(w, steps) + [(turn, BeforeAttempt(k))] + (if w.fits(turn, k) then [(turn, AfterAttempt(k))] else [])
      && Heard(w, more) ==
         (if ResponseAt(w, turn, k).Some? then Heard(w, steps) + [ResponseAt(w, turn, k).value] else Heard(w, steps))
      && (DiscardsSilent(w, steps) ==> DiscardsSilent(w, more))
      && AttemptsIn(more, turn) == k + 1
      && (forall t | t != turn :: AttemptsIn(more, t) == AttemptsIn(steps, t))
      && forall t :: CallsIn(more, t) == CallsIn(steps, t)
  {
    hide Passed, Heard, DiscardsSilent, AttemptsIn, CallsIn, DeltaSteps;
    var k, one := AttemptsIn(steps, turn), steps + [ModelStarted(turn, ref)];
    StartStep(w, steps, turn, ref);
    if !w.fits(turn, k) {
      UnheardStep(w, one, FitFailed(turn, ref));
      assert steps + AttemptSteps(w, turn, ref, k) == one + [FitFailed(turn, ref)];
    } else {
      var deltas := DeltaSteps(turn, ref, w.complete(turn, k).deltas);
      DeltasUnheard(w, one, turn, ref, w.complete(turn, k).deltas);
      UnheardStep(w, one + deltas, ProviderFailed(turn, ref));
      assert steps + AttemptSteps(w, turn, ref, k) == one + deltas ||
             steps + AttemptSteps(w, turn, ref, k) == one + deltas + [ProviderFailed(turn, ref)];
    }
  }

  /** Only attempts of this turn were added. */
  ghost predicate AsksOnly(turn: nat, before: seq<Step>, steps: seq<Step>) {
    && (forall t | t != turn :: AttemptsIn(steps, t) == AttemptsIn(before, t))
    && forall t :: CallsIn(steps, t) == CallsIn(before, t)
  }

  /** The turn is waiting for a model. */
  predicate Awaits(steps: seq<Step>, turn: nat) {
    && steps != []
    && var last := steps[|steps| - 1];
    last.turn == turn && (last.TurnBegan? || last.FitFailed? || last.ProviderFailed?)
  }

  /** The turn has a response, and perhaps answers to its calls. */
  predicate Responded(steps: seq<Step>, turn: nat) {
    && steps != []
    && var last := steps[|steps| - 1];
    last.turn == turn && (last.ModelStarted? || last.Delta? || last.ToolFinished?)
  }

  ghost predicate Calm(w: World, steps: seq<Step>) {
    Uncancelled(w, steps) && DiscardsSilent(w, steps)
  }

  /** An attempt that neither is cancelled nor brings a response leaves the turn
      waiting. */
  lemma AttemptFails(w: World, steps: seq<Step>, turn: nat, ref: string)
    requires Calm(w, steps) && !w.cancelled(turn, BeforeAttempt(AttemptsIn(steps, turn)))
    requires var k := AttemptsIn(steps, turn);
      !w.fits(turn, k) || (!w.cancelled(turn, AfterAttempt(k)) && w.complete(turn, k).response.None?)
    ensures
      var more := steps + AttemptSteps(w, turn, ref, AttemptsIn(steps, turn));
      && Calm(w, more) && Awaits(more, turn) && Heard(w, more) == Heard(w, steps) && AsksOnly(turn, steps, more)
      && AttemptsIn(more, turn) == AttemptsIn(steps, turn) + 1
  {
    hide Passed, Heard, DiscardsSilent, AttemptsIn, CallsIn;
    AttemptTold(w, steps, turn, ref);
  }

  /** One that is cancelled meanwhile cuts the run. */
  lemma AttemptIsCut(w: World, steps: seq<Step>, turn: nat, ref: string)
    requires Calm(w, steps) && !w.cancelled(turn, BeforeAttempt(AttemptsIn(steps, turn)))
    requires var k := AttemptsIn(steps, turn); w.fits(turn, k) && w.cancelled(turn, AfterAttempt(k))
    ensures
      var more := steps + AttemptSteps(w, turn, ref, AttemptsIn(steps, turn));
      && Reached(w, more, Passed(w, more)) && CutAt(w, Passed(w, more), true) && DiscardsSilent(w, more)
      && Heard(w, more) == Heard(w, steps) && AsksOnly(turn, steps, more)
      && AttemptsIn(more, turn) == AttemptsIn(steps, turn) + 1
  {
    hide Passed, Heard, DiscardsSilent, AttemptsIn, CallsIn, Reached, CutAt, AttemptSteps;
    var k := AttemptsIn(steps, turn);
    AttemptTold(w, steps, turn, ref);
    ReachedLast(w, steps, steps + AttemptSteps(w, turn, ref, k), [(turn, BeforeAttempt(k))], (turn, AfterAttempt(k)));
  }

  /** One that brings a response ends the turn's attempts. */
  lemma AttemptSucceeds(w: World, steps: seq<Step>, turn: nat, ref: string)
    requires Calm(w, steps) && !w.cancelled(turn, BeforeAttempt(AttemptsIn(steps, turn)))
    requires var k := AttemptsIn(steps, turn);
      w.fits(turn, k) && !w.cancelled(turn, AfterAttempt(k)) && w.complete(turn, k).response.Some?
    ensures
      var k := AttemptsIn(steps, turn);
      var more := steps + AttemptSteps(w, turn, ref, k);
      && Calm(w, more) && Responded(more, turn) && AsksOnly(turn, steps, more)
      && Heard(w, more) == Heard(w, steps) + [w.complete(turn, k).response.value]
      && AttemptsIn(more, turn) == k + 1
  {
    hide Passed, Heard, DiscardsSilent, AttemptsIn, CallsIn;
    AttemptTold(w, steps, turn, ref);
  }

  /** The steps of the first attempts of a turn. */
  function TurnSteps(w: World, turn: nat, refs: seq<string>, n: nat): seq<Step>
    requires n <= |refs|
  {
    if n == 0 then [] else TurnSteps(w, turn, refs, n - 1) + AttemptSteps(w, turn, refs[n - 1], n - 1)
  }

  /** Eligible models are tried in the plan's order until one responds. */
  method CompleteWithObserver(
    w: World, turn: nat, budget: FailureBudget, before: seq<Step>, ghost bound: Option<Bound>)
    returns (steps: seq<Step>, reply: Reply, ghost tried: nat, ghost reached: seq<(nat, Point)>)
    requires Good(w.digest, bound, before) && budget.Open() && budget.Counts(before)
    requires Awaits(before, turn) && Calm(w, before) && AttemptsIn(before, turn) == 0
    modifies budget
    ensures ModelOnly(w.digest, bound, before, steps) && budget.Counts(steps)
    ensures budget.limit > 0 ==>
      |budget.failures| <= budget.limit && (reply == Failure(AttemptLimit) <==> |budget.failures| == budget.limit)
    ensures budget.limit == 0 ==> reply != Failure(AttemptLimit)
    ensures reply == Failure(Unplanned) <==> w.plan(turn).Refused? || w.plan(turn).refs == []
    ensures w.plan(turn).Eligible? ==> InOrder(w, turn, w.plan(turn).refs, tried, reply)
    ensures w.plan(turn).Eligible? ==> Tried(steps) == Tried(before) + w.plan(turn).refs[..tried]
    ensures w.plan(turn).Eligible? ==>
      AttemptsIn(steps, turn) == tried && steps == before + TurnSteps(w, turn, w.plan(turn).refs, tried)
    ensures w.plan(turn).Refused? ==> steps == before
    ensures AsksOnly(turn, before, steps)
    ensures Heard(w, steps) == if reply.Completed? then Heard(w, before) + [reply.response] else Heard(w, before)
    ensures reply.Completed? ==> Responded(steps, turn)
    ensures reply.Failure? ==>
      Awaits(steps, turn) && (reply.failure.AttemptLimit? ==> steps[|steps| - 1].ProviderFailed?)
    ensures Reached(w, steps, reached) && CutAt(w, reached, reply.Interrupted?) && DiscardsSilent(w, steps)
  {
    hide Good, Recorded, Reports, Turns, Idle, Failures, Tried, Passed, Heard, DiscardsSilent, AttemptsIn, CallsIn,
         Reached, CutAt, DeltaSteps, TurnSteps, AttemptSteps, Awaits, Responded, Final, ModelOnly, Calm, AsksOnly,
         InOrder, ResponseAt;
    var d := w.digest;
    steps, tried := before, 0;
    OnlyBefore(d, bound, before);
    CalmMeans(w, before);
    ReachedAll(w, before);
    reached := Passed(w, before);
    NoAttempts(w, turn, before);
    if w.plan(turn).Refused? || w.plan(turn).refs == [] {
      assert Tried(steps) == Tried(before) + [];
      NoneInOrder(w, turn);
      return steps, Failure(Unplanned), 0, reached;
    }
    var refs := w.plan(turn).refs;
    for k := 0 to |refs|
      invariant tried == k && ModelOnly(d, bound, before, steps) && budget.Open() && budget.Counts(steps)
      invariant Tried(steps) == Tried(before) + refs[..k]
      invariant forall j: nat | j < k :: FailsAt(w, turn, j)
      invariant steps == before + TurnSteps(w, turn, refs, k) && AsksOnly(turn, before, steps)
      invariant Awaits(steps, turn) && Calm(w, steps) && AttemptsIn(steps, turn) == k
      invariant Heard(w, steps) == Heard(w, before)
    {
      if w.cancelled(turn, BeforeAttempt(k)) {
        ComesToAttempt(w, steps, turn, k);
        CalmMeans(w, steps);
        InOrderSo(w, turn, refs, k, Interrupted);
        ReachedNext(w, steps, (turn, BeforeAttempt(k)));
        reached := Passed(w, steps) + [(turn, BeforeAttempt(k))];
        return steps, Interrupted, k, reached;
      }
      ghost var start := steps;
      AttemptMore(w, turn, refs, k, before);
      AskMore(turn, before, start);
      OnlyMore(d, bound, before, steps, ModelStarted(turn, refs[k]));
      steps := steps + [ModelStarted(turn, refs[k])];
      tried := k + 1;
      assert refs[..k] + [refs[k]] == refs[..k + 1];
      if !w.fits(turn, k) {
        OnlyMore(d, bound, before, steps, FitFailed(turn, refs[k]));
        steps := steps + [FitFailed(turn, refs[k])];
        AttemptIs(w, start, turn, refs[k], k);
        AttemptFails(w, start, turn, refs[k]);
        continue;
      }
      var completion := w.complete(turn, k);
      steps := EmitDeltas(w, turn, refs[k], completion.deltas, before, steps, bound);
      AttemptIs(w, start, turn, refs[k], k);
      if w.cancelled(turn, AfterAttempt(k)) {
        AttemptIsCut(w, start, turn, refs[k]);
        InOrderSo(w, turn, refs, k + 1, Interrupted);
        reached := Passed(w, steps);
        return steps, Interrupted, k + 1, reached;
      }
      if completion.response.Some? {
        AttemptSucceeds(w, start, turn, refs[k]);
        CalmMeans(w, steps);
        InOrderSo(w, turn, refs, k + 1, Completed(completion.response.value));
        ReachedAll(w, steps);
        reached := Passed(w, steps);
        return steps, Completed(completion.response.value), k + 1, reached;
      }
      OnlyMore(d, bound, before, steps, ProviderFailed(turn, refs[k]));
      steps := steps + [ProviderFailed(turn, refs[k])];
      AttemptFails(w, start, turn, refs[k]);
      if budget.limit > 0 {
        budget.failures := budget.failures + [refs[k]];
        if |budget.failures| >= budget.limit {
          CalmMeans(w, steps);
          InOrderSo(w, turn, refs, k + 1, Failure(AttemptLimit));
          ReachedAll(w, steps);
          reached := Passed(w, steps);
          return steps, Failure(AttemptLimit), k + 1, reached;
        }
      }
    }
    assert refs[..|refs|] == refs;
    CalmMeans(w, steps);
    InOrderSo(w, turn, refs, |refs|, Failure(AllFailed));
    ReachedAll(w, steps);
    reached := Passed(w, steps);
    return steps, Failure(AllFailed), |refs|, reached;
  }

  lemma CalmMeans(w: World, steps: seq<Step>)
    requires Calm(w, steps)
    ensures Uncancelled(w, steps) && DiscardsSilent(w, steps)
  {
  }

  lemma NoneInOrder(w: World, turn: nat)
    ensures InOrder(w, turn, [], 0, Failure(Unplanned))
  {
  }

  lemma InOrderSo(w: World, turn: nat, refs: seq<string>, tried: nat, reply: Reply)
    requires tried <= |refs| && forall j: nat | j + 1 < tried :: FailsAt(w, turn, j)
    requires reply.Completed? ==>
      && tried > 0 && w.fits(turn, tried - 1)
      && w.complete(turn, tried - 1).response == Some(reply.response)
    requires reply == Failure(AllFailed) ==> tried == |refs| && forall j: nat | j < tried :: FailsAt(w, turn, j)
    ensures InOrder(w, turn, refs, tried, reply)
  {
    hide FailsAt;
  }

  lemma AskMore(turn: nat, before: seq<Step>, start: seq<Step>)
    requires AsksOnly(turn, before, start)
    ensures forall more | AsksOnly(turn, start, more) :: AsksOnly(turn, before, more)
  {
    hide AttemptsIn, CallsIn;
  }

  lemma NoAttempts(w: World, turn: nat, before: seq<Step>)
    ensures AsksOnly(turn, before, before) && forall refs :: before == before + TurnSteps(w, turn, refs, 0)
  {
    assert forall refs :: TurnSteps(w, turn, refs, 0) == [];
  }

  lemma AttemptMore(w: World, turn: nat, refs: seq<string>, k: nat, before: seq<Step>)
    requires k < |refs|
    ensures before + TurnSteps(w, turn, refs, k + 1) ==
            before + TurnSteps(w, turn, refs, k) + AttemptSteps(w, turn, refs[k], k)
  {
    hide AttemptSteps;
  }

  lemma AttemptIs(w: World, start: seq<Step>, turn: nat, ref: string, k: nat)
    ensures
      var one, more := start + [ModelStarted(turn, ref)], start + AttemptSteps(w, turn, ref, k);
      && (!w.fits(turn, k) ==> more == one + [FitFailed(turn, ref)])
      && (w.fits(turn, k) ==>
            var all := one + DeltaSteps(turn, ref, w.complete(turn, k).deltas);
            if w.cancelled(turn, AfterAttempt(k)) || w.complete(turn, k).response.Some? then more == all
            else more == all + [ProviderFailed(turn, ref)])
  {
    hide DeltaSteps;
  }

  lemma ComesToAttempt(w: World, steps: seq<Step>, turn: nat, k: nat)
    requires Awaits(steps, turn) && w.plan(turn).Eligible? && k == AttemptsIn(steps, turn) < |w.plan(turn).refs|
    ensures ComesTo(w, steps, (turn, BeforeAttempt(k)))
  {
    hide AttemptsIn;
  }

  // ------------------------------------------------- tools

  /** A tool only runs for a call with an id that the policy lets through. */
  function RunTool(w: World, tools: bool, turn: nat, i: nat, call: Call): (o: ToolOutcome)
    ensures
      if tools && call.id != "" && w.refusal(call).None? && !w.cancelled(turn, InCall(i))
      then o == w.tool(turn, i) else o.Failed?
  {
    if w.cancelled(turn, InCall(i)) then Failed("context canceled")
    else if !tools then Failed("no tool registry configured for call " + call.name)
    else if call.id == "" then Failed("tool call is missing id")
    else if w.refusal(call).Some? then Failed(w.refusal(call).value)
    else w.tool(turn, i)
  }

  function OutputOf(o: ToolOutcome): (s: string)
    ensures o.Ran? ==> s == o.output
    ensures o.Failed? ==> |s| == 12 + |o.message| && s[12..] == o.message
  {
    match o
    case Ran(output) => output
    case Failed(message) => "tool error: " + message
  }

  /** To the earlier messages, answers to the first of these calls were added. */
  predicate AnsweredTo(messages: seq<Message>, earlier: seq<Message>, calls: seq<Call>) {
    && |earlier| <= |messages| <= |earlier| + |calls| && messages[..|earlier|] == earlier
    && forall i | 0 <= i < |messages| - |earlier| :: Answers(messages[|earlier| + i], calls[i])
  }

  predicate AllAnswered(messages: seq<Message>, earlier: seq<Message>, calls: seq<Call>) {
    |messages| == |earlier| + |calls|
  }

  /** The steps of the first `n` calls of a response. */
  function CallSteps(w: World, tools: bool, turn: nat, calls: seq<Call>, n: nat): seq<Step>
    requires n <= |calls|
  {
    if n == 0 then []
    else
      var o := RunTool(w, tools, turn, n - 1, calls[n - 1]);
      CallSteps(w, tools, turn, calls, n - 1) +
      [ToolStarted(turn, calls[n - 1])] + [ToolFinished(turn, calls[n - 1], OutputOf(o), o.Failed?)]
  }

  lemma NoCalls(w: World, tools: bool, turn: nat, calls: seq<Call>)
    ensures CallSteps(w, tools, turn, calls, 0) == []
  {
  }

  /** One call more: its steps, and the message that answers it. */
  lemma NextCall(w: World, tools: bool, turn: nat, calls: seq<Call>, i: nat, before: seq<Step>)
    requires i < |calls|
    ensures
      var o, call := RunTool(w, tools, turn, i, calls[i]), calls[i];
      && before + CallSteps(w, tools, turn, calls, i) +
         [ToolStarted(turn, call)] + [ToolFinished(turn, call, OutputOf(o), o.Failed?)] ==
         before + CallSteps(w, tools, turn, calls, i + 1)
      && Answers(AnswerTo(call, OutputOf(o), o.Failed?), call)
      && (AnswerTo(call, OutputOf(o), o.Failed?).Result? || AnswerTo(call, OutputOf(o), o.Failed?).Partless?)
  {
    hide RunTool;
  }

  datatype CallsEnd = Done | Looping(assessment: Assessment) | Cut

  /** The calls of one response, in order, until one is critical. */
  method RunCalls(
    w: World, tools: bool, turn: nat, calls: seq<Call>, detector: Detector,
    earlier: seq<Message>, before: seq<Step>, ghost bound: Option<Bound>)
    returns (messages: seq<Message>, steps: seq<Step>, end: CallsEnd, ghost reached: seq<(nat, Point)>)
    requires Good(w.digest, bound, before) && !Critical(Recorded(w.digest, before))
    requires Responded(before, turn) && Calm(w, before) && CallsIn(before, turn) == 0
    requires Heard(w, before) != [] && Heard(w, before)[|Heard(w, before)| - 1].calls == calls
    requires bound.Some? ==> bound.value.used + Turns(before) < bound.value.limit
    requires detector.Valid() && detector.all == Recorded(w.digest, before)
    requires ToolMessages(earlier) == Reports(before)
    modifies detector
    ensures detector.Valid() && Good(w.digest, bound, steps)
    ensures Turns(steps) == Turns(before) && Failures(steps) == Failures(before)
    ensures ToolMessages(messages) == Reports(steps)
    ensures AnsweredTo(messages, earlier, calls)
    ensures steps == before + CallSteps(w, tools, turn, calls, |messages| - |earlier|)
    ensures end.Done? ==>
      && AllAnswered(messages, earlier, calls) && !Critical(Recorded(w.digest, steps))
      && detector.all == Recorded(w.digest, steps)
      && Idle(steps) == if calls == [] then Idle(before) else 0
    ensures end.Looping? ==>
      var all := Recorded(w.digest, steps);
      Critical(all) && end.assessment == Assessment(Repeats(all), NoProgress(all), true)
    ensures Heard(w, steps) == Heard(w, before) && CallsOnly(turn, before, steps)
    ensures Reached(w, steps, reached) && CutAt(w, reached, end.Cut?) && DiscardsSilent(w, steps)
  {
    hide Good, Recorded, Reports, Turns, Idle, Failures, Tried, ToolMessages, Critical, Repeats, NoProgress,
         MaxRepeats, MaxNoProgress, Window, RunTool, OutputOf, CallSteps, Answers, AnswerTo, EntryOf,
         Passed, Heard, DiscardsSilent, AttemptsIn, CallsIn, Reached, CutAt, Uncancelled, Responded;
    messages, steps := earlier, before;
    assert CallSteps(w, tools, turn, calls, 0) == [] by {
      NoCalls(w, tools, turn, calls);
    }
    for i := 0 to |calls|
      invariant Good(w.digest, bound, steps) && !Critical(Recorded(w.digest, steps))
      invariant Turns(steps) == Turns(before) && Failures(steps) == Failures(before)
      invariant Idle(steps) == if i == 0 then Idle(before) else 0
      invariant detector.Valid() && detector.all == Recorded(w.digest, steps)
      invariant ToolMessages(messages) == Reports(steps)
      invariant |messages| == |earlier| + i && messages[..|earlier|] == earlier
      invariant forall j | 0 <= j < i :: Answers(messages[|earlier| + j], calls[j])
      invariant steps == before + CallSteps(w, tools, turn, calls, i)
      invariant Responded(steps, turn) && Calm(w, steps) && CallsIn(steps, turn) == i
      invariant Heard(w, steps) == Heard(w, before) && CallsOnly(turn, before, steps)
    {
      if w.cancelled(turn, BeforeCall(i)) {
        ComesToCall(w, steps, turn, calls, i);
        ReachedNext(w, steps, (turn, BeforeCall(i)));
        reached := Passed(w, steps) + [(turn, BeforeCall(i))];
        return messages, steps, Cut, reached;
      }
      var call := calls[i];
      var outcome := RunTool(w, tools, turn, i, call);
      NextCall(w, tools, turn, calls, i, before);
      var output, failed := OutputOf(outcome), outcome.Failed?;
      ToolSteps(w.digest, bound, steps, turn, call, output, failed);
      CallTold(w, steps, turn, call, output, failed);
      steps := steps + [ToolStarted(turn, call)];
      steps := steps + [ToolFinished(turn, call, output, failed)];
      UnfoldMessages(messages, AnswerTo(call, output, failed));
      messages := messages + [AnswerTo(call, output, failed)];
      reached := Passed(w, steps);
      if w.cancelled(turn, AfterCall(i)) {
        return messages, steps, Cut, reached;
      }
      var assessment := detector.Record(EntryOf(w.digest, call, output));
      if assessment.critical {
        return messages, steps, Looping(assessment), reached;
      }
    }
    end := Done;
    ReachedAll(w, steps);
    reached := Passed(w, steps);
  }

  /** Only calls of this turn were added. */
  ghost predicate CallsOnly(turn: nat, before: seq<Step>, steps: seq<Step>) {
    && (forall t :: AttemptsIn(steps, t) == AttemptsIn(before, t))
    && forall t | t != turn :: CallsIn(steps, t) == CallsIn(before, t)
  }

  lemma ComesToCall(w: World, steps: seq<Step>, turn: nat, calls: seq<Call>, i: nat)
    requires Responded(steps, turn) && i == CallsIn(steps, turn) < |calls|
    requires Heard(w, steps) != [] && Heard(w, steps)[|Heard(w, steps)| - 1].calls == calls
    ensures ComesTo(w, steps, (turn, BeforeCall(i)))
  {
    hide CallsIn, Heard;
  }

  /** An executed call cuts the run exactly when it is cancelled after the call. */
  lemma CallTold(w: World, steps: seq<Step>, turn: nat, call: Call, output: string, failed: bool)
    requires Calm(w, steps) && !w.cancelled(turn, BeforeCall(CallsIn(steps, turn)))
    ensures
      var i, more := CallsIn(steps, turn), steps + [ToolStarted(turn, call)] + [ToolFinished(turn, call, output, failed)];
      && Heard(w, more) == Heard(w, steps) && CallsOnly(turn, steps, more) && DiscardsSilent(w, more)
      && CallsIn(more, turn) == i + 1 && Responded(more, turn)
      && Reached(w, more, Passed(w, more)) && CutAt(w, Passed(w, more), w.cancelled(turn, AfterCall(i)))
      && (!w.cancelled(turn, AfterCall(i)) ==> Calm(w, more))
  {
    hide Passed, Heard, DiscardsSilent, AttemptsIn, CallsIn, Reached, CutAt;
    var i, more := CallsIn(steps, turn), steps + [ToolStarted(turn, call)] + [ToolFinished(turn, call, output, failed)];
    CallStep(w, steps, turn, call, output, failed);
    if w.cancelled(turn, AfterCall(i)) {
      assert Passed(w, more) == Passed(w, steps) + [(turn, BeforeCall(i))] + [(turn, AfterCall(i))];
      ReachedLast(w, steps, more, [(turn, BeforeCall(i))], (turn, AfterCall(i)));
    } else {
      ReachedAll(w, more);
    }
  }

  const DISABLED := "Tool call not executed: tools are disabled on the final turn."

  /** Calls that came on the final turn are answered, not run. */
  method RefuseCalls(calls: seq<Call>, earlier: seq<Message>) returns (messages: seq<Message>)
    ensures AnsweredTo(messages, earlier, calls) && AllAnswered(messages, earlier, calls)
    ensures RefusedAfter(ToolMessages(earlier), ToolMessages(messages))
  {
    hide ToolMessages;
    messages := earlier;
    for i := 0 to |calls|
      invariant |messages| == |earlier| + i && messages[..|earlier|] == earlier
      invariant forall j | 0 <= j < i :: Answers(messages[|earlier| + j], calls[j])
      invariant RefusedAfter(ToolMessages(earlier), ToolMessages(messages))
    {
      UnfoldMessages(messages, AnswerTo(calls[i], DISABLED, true));
      messages := messages + [AnswerTo(calls[i], DISABLED, true)];
    }
  }

  /** The tool messages are the reports of executed calls, and after them only
      answers to calls that were refused. */
  predicate RefusedAfter(reports: seq<Message>, all: seq<Message>) {
    && reports <= all
    && forall i | |reports| <= i < |all| :: all[i].Partless? || (all[i].Result? && all[i].failed && all[i].output == DISABLED)
  }

  // ------------------------------------------------- the run

  /** What a finished run may look like, by its outcome. */
  ghost predicate Shaped(r: RunResult) {
    match r.outcome
    case Answered(_) =>
      && Complete(r.messages) && r.messages != []
      && var last := r.messages[|r.messages| - 1];
      && last.Said? && last.response.calls == []
      && (last.response.speaks || Idle(r.steps) == MAX_EMPTY_RETRIES)
    case ModelError(_) => Complete(r.messages)
    case Cancelled => Complete(r.messages) || CutShort(r.messages)
    case Stopped(stop) =>
      && r.messages != [] && r.messages[|r.messages| - 1] == Summary(stop)
      && var body := r.messages[..|r.messages| - 1];
      && if stop.ToolLoop? then CutShort(body) else Complete(body)
  }

  /** A loop stop is exactly the detector's verdict on the executed calls, and
      stop messages tell its counts. */
  ghost predicate LoopTold(all: seq<Entry>, r: RunResult) {
    && (r.outcome.Cancelled? || (Critical(all) <==> r.outcome.Stopped? && r.outcome.stop.ToolLoop?))
    && (r.outcome.Stopped? && r.outcome.stop.ToolLoop? ==>
          all != [] && r.outcome.stop == ToolLoop(Repeats(all), NoProgress(all)))
    && (r.outcome.Stopped? && r.outcome.stop.TurnLimit? ==>
          r.outcome.stop == TurnLimit(MaxRepeats(all), MaxNoProgress(all)))
  }

  /** Every executed call is reported, in order, as the tool messages. */
  ghost predicate Reported(r: RunResult) {
    if r.outcome == Stopped(BudgetExhausted)
    then RefusedAfter(Reports(r.steps), ToolMessages(r.messages))
    else ToolMessages(r.messages) == Reports(r.steps)
  }

  ghost predicate FromModel(w: World, r: Response) {
    exists turn: nat, attempt: nat :: w.complete(turn, attempt).response == Some(r)
  }

  /** No response was made up. */
  ghost predicate Authentic(w: World, ms: seq<Message>) {
    forall i | 0 <= i < |ms| && ms[i].Said? :: FromModel(w, ms[i].response)
  }

  lemma AuthenticAfter(w: World, ms: seq<Message>, r: Response, more: seq<Message>)
    requires Authentic(w, ms) && FromModel(w, r) && AnsweredTo(more, ms + [Said(r)], r.calls)
    ensures Authentic(w, more)
  {
    hide FromModel;
    forall i | 0 <= i < |more| ensures more[i].Said? ==> FromModel(w, more[i].response) {
      var n := |ms| + 1;
      if i < n {
        assert more[i] == (ms + [Said(r)])[i];
      } else {
        assert Answers(more[n + (i - n)], r.calls[i - n]);
      }
    }
  }

  lemma AuthenticAnswer(w: World, ms: seq<Message>, r: Response)
    requires Authentic(w, ms) && FromModel(w, r)
    ensures Authentic(w, ms + [Said(r)])
  {
    hide FromModel;
  }

  lemma AuthenticSummary(w: World, ms: seq<Message>, stop: Stop)
    requires Authentic(w, ms)
    ensures Authentic(w, ms + [Summary(stop)])
  {
    hide FromModel;
  }

  lemma OpensAfter(ms: seq<Message>, more: seq<Message>, r: Response)
    requires Complete(ms) && AnsweredTo(more, ms + [Said(r)], r.calls)
    ensures CutShort(more)
    ensures AllAnswered(more, ms + [Said(r)], r.calls) ==> Complete(more)
  {
    hide Complete;
    assert more[|ms|] == more[..|ms| + 1][|ms|];
    assert more[..|ms|] == more[..|ms| + 1][..|ms|] == ms;
    assert OpenAt(more, |ms|);
    if |more| == |ms| + 1 + |r.calls| {
      Closes(more, |ms|);
    }
  }

  /** A run that ends in an error, or is cancelled, keeps what it has. */
  lemma ErrorShaped(messages: seq<Message>, steps: seq<Step>, outcome: Outcome, all: seq<Entry>)
    requires outcome.ModelError? || outcome.Cancelled?
    requires outcome.Cancelled? || !Critical(all)
    requires Complete(messages) || (outcome.Cancelled? && CutShort(messages))
    requires ToolMessages(messages) == Reports(steps)
    ensures
      var r := RunResult(messages, steps, outcome);
      Shaped(r) && Reported(r) && LoopTold(all, r) && FinishTold(r)
  {
  }

  lemma AnswerShaped(
    messages: seq<Message>, steps: seq<Step>, response: Response, incomplete: bool, all: seq<Entry>)
    requires !Critical(all) && Complete(messages) && ToolMessages(messages) == Reports(steps) && response.calls == []
    requires response.speaks || Idle(steps) == MAX_EMPTY_RETRIES
    requires incomplete <==> Final(steps) && response.finish != "" && response.finish != "stop"
    ensures
      var r := RunResult(messages + [Said(response)], steps, Answered(incomplete));
      Shaped(r) && Reported(r) && LoopTold(all, r) && FinishTold(r)
  {
    hide Complete, CutShort, Answers, ToolMessages, Reports, Idle, Voices, Final;
    VoicesMore(messages, Said(response));
    UnfoldMessages(messages, Said(response));
    OpensAfter(messages, messages + [Said(response)], response);
  }

  lemma StopShaped(messages: seq<Message>, steps: seq<Step>, stop: Stop, all: seq<Entry>)
    requires if stop.ToolLoop?
             then CutShort(messages) && Critical(all) && stop == ToolLoop(Repeats(all), NoProgress(all))
             else Complete(messages) && !Critical(all)
    requires stop.TurnLimit? ==> stop == TurnLimit(MaxRepeats(all), MaxNoProgress(all))
    requires RefusedAfter(Reports(steps), ToolMessages(messages))
    requires stop.BudgetExhausted? || ToolMessages(messages) == Reports(steps)
    ensures
      var r := RunResult(messages + [Summary(stop)], steps, Stopped(stop));
      Shaped(r) && Reported(r) && LoopTold(all, r) && FinishTold(r) && Voices(r.messages) == Voices(messages)
  {
    VoicesMore(messages, Summary(stop));
    hide Complete, CutShort, ToolMessages, Reports, Idle, Repeats, NoProgress, MaxRepeats, MaxNoProgress;
    UnfoldMessages(messages, Summary(stop));
    assert (messages + [Summary(stop)])[..|messages|] == messages;
  }

  /** What a run has between two turns. */
  ghost predicate Between(w: World, bound: Option<Bound>, messages: seq<Message>, steps: seq<Step>) {
    && Good(w.digest, bound, steps) && !Critical(Recorded(w.digest, steps))
    && Authentic(w, messages) && Complete(messages) && ToolMessages(messages) == Reports(steps)
    && Calm(w, steps)
  }

  /** The run was cut exactly if it was cancelled at a point that it came to; the
      responses that came are in the messages, in order, but for silent ones that
      were thrown away. */
  ghost predicate WorldTold(w: World, r: RunResult) {
    && (exists reached :: Reached(w, r.steps, reached) && CutAt(w, reached, r.outcome.Cancelled?))
    && DiscardsSilent(w, r.steps)
    && Heard(w, r.steps) == Voices(r.messages)
  }

  /** What a run that has ended leaves. */
  ghost predicate Judged(w: World, bound: Option<Bound>, r: RunResult) {
    && Good(w.digest, bound, r.steps)
    && Shaped(r) && LoopTold(Recorded(w.digest, r.steps), r) && Reported(r) && Authentic(w, r.messages)
    && WorldTold(w, r) && Blamed(w, r) && FinishTold(r)
  }

  /** An answer counts as incomplete exactly when it came on the final turn and the
      provider did not end it normally. */
  ghost predicate FinishTold(r: RunResult) {
    r.outcome.Answered? ==>
      var voices := Voices(r.messages);
      && voices != []
      && var finish := voices[|voices| - 1].finish;
      (r.outcome.incomplete <==> Final(r.steps) && finish != "" && finish != "stop")
  }

  /** A model error is what the last turn's plan and models gave. */
  ghost predicate Blamed(w: World, r: RunResult) {
    r.outcome.ModelError? ==>
      && r.steps != []
      && var turn := r.steps[|r.steps| - 1].turn;
      match r.outcome.failure
      case Unplanned => w.plan(turn).Refused? || w.plan(turn).refs == []
      case AllFailed =>
        && w.plan(turn).Eligible? && AttemptsIn(r.steps, turn) == |w.plan(turn).refs| > 0
        && forall j: nat | j < |w.plan(turn).refs| :: FailsAt(w, turn, j)
      case AttemptLimit => r.steps[|r.steps| - 1].ProviderFailed?
  }

  /** A response is refused on the final turn, thrown away, taken as the answer,
      or its calls are executed. */
  method TakeResponse(
    w: World, tools: bool, turn: nat, final: bool, response: Response, detector: Detector, emptyRetries: nat,
    messages: seq<Message>, steps: seq<Step>, ghost bound: Option<Bound>)
    returns (ended: Option<RunResult>, messages': seq<Message>, steps': seq<Step>, emptyRetries': nat)
    requires Between(w, bound, messages, steps) && FromModel(w, response)
    requires Heard(w, steps) == Voices(messages) + [response] && Responded(steps, turn) && CallsIn(steps, turn) == 0
    requires Final(steps) == final
    requires detector.Valid() && detector.all == Recorded(w.digest, steps)
    requires emptyRetries == Idle(steps) <= MAX_EMPTY_RETRIES
    requires bound.Some? && !final ==> bound.value.used + Turns(steps) < bound.value.limit
    modifies detector
    ensures ended.None? ==>
      && Between(w, bound, messages', steps') && detector.Valid() && detector.all == Recorded(w.digest, steps')
      && emptyRetries' == Idle(steps') <= MAX_EMPTY_RETRIES && !final
      && Heard(w, steps') == Voices(messages') && CallsOnly(turn, steps, steps')
      && Turns(steps') == Turns(steps) && Failures(steps') == Failures(steps)
    ensures ended.Some? ==>
      && Judged(w, bound, ended.value)
      && Turns(ended.value.steps) == Turns(steps) && Failures(ended.value.steps) == Failures(steps)
      && !ended.value.outcome.ModelError?
      && (ended.value.outcome.Stopped? ==> !ended.value.outcome.stop.TurnLimit?)
      && (ended.value.outcome == Answered(true) ==> final)
    ensures
      (ended.Some? && ended.value.outcome == Stopped(BudgetExhausted)) <==>
      final && (response.calls != [] || !response.speaks)
    ensures (ended.Some? && ended.value.outcome.Answered?) <==>
      && response.calls == []
      && (response.speaks || (!final && emptyRetries == MAX_EMPTY_RETRIES))
    ensures response.calls == [] && !response.speaks && !final && emptyRetries < MAX_EMPTY_RETRIES ==>
      ended.None? && messages' == messages && steps' == steps + [Discarded(turn)]
    ensures ended.None? && response.calls != [] ==>
      && AnsweredTo(messages', messages + [Said(response)], response.calls)
      && steps' == steps + CallSteps(w, tools, turn, response.calls, |response.calls|)
  {
    hide Good, Recorded, Reports, Turns, Idle, Failures, Tried, ToolMessages, Critical, Repeats, NoProgress,
         MaxRepeats, MaxNoProgress, Window, Complete, CutShort, AnsweredTo, CallSteps, RefusedAfter,
         Shaped, Reported, LoopTold, FromModel, Authentic, Detector.Valid, Passed, Heard, DiscardsSilent, AttemptsIn,
         CallsIn, Reached, CutAt, Responded, FinishTold, Voices, Calm, WorldTold, Final;
    ghost var d := w.digest;
    ended, messages', steps', emptyRetries' := None, messages, steps, emptyRetries;
    VoicesMore(messages, Said(response));
    if final && (response.calls != [] || !response.speaks) {
      UnfoldMessages(messages, Said(response));
      var all := RefuseCalls(response.calls, messages + [Said(response)]);
      OpensAfter(messages, all, response);
      AuthenticAfter(w, messages, response, all);
      AuthenticSummary(w, all, BudgetExhausted);
      StopShaped(all, steps, BudgetExhausted, Recorded(d, steps));
      VoicesAnswers(all, messages + [Said(response)], response.calls);
      CalmIsTold(w, RunResult(all + [Summary(BudgetExhausted)], steps, Stopped(BudgetExhausted)));
      ended := Some(RunResult(all + [Summary(BudgetExhausted)], steps, Stopped(BudgetExhausted)));
      return;
    }
    if response.calls == [] && !response.speaks && emptyRetries < MAX_EMPTY_RETRIES {
      PlainStep(d, bound, steps, Discarded(turn));
      DiscardTold(w, steps, turn, Voices(messages), response);
      steps' := steps + [Discarded(turn)];
      emptyRetries' := emptyRetries + 1;
      return;
    }
    emptyRetries' := 0;
    UnfoldMessages(messages, Said(response));
    messages' := messages + [Said(response)];
    if response.calls == [] {
      var incomplete := final && response.finish != "" && response.finish != "stop";
      AuthenticAnswer(w, messages, response);
      AnswerShaped(messages, steps, response, incomplete, Recorded(d, steps));
      CalmIsTold(w, RunResult(messages', steps, Answered(incomplete)));
      ended := Some(RunResult(messages', steps, Answered(incomplete)));
      return;
    }
    var end: CallsEnd;
    ghost var reached;
    messages', steps', end, reached := RunCalls(w, tools, turn, response.calls, detector, messages', steps, bound);
    OpensAfter(messages, messages', response);
    VoicesAnswers(messages', messages + [Said(response)], response.calls);
    AuthenticAfter(w, messages, response, messages');
    if end.Cut? {
      ErrorShaped(messages', steps', Cancelled, Recorded(d, steps'));
      ReachedIsTold(w, RunResult(messages', steps', Cancelled), reached);
      ended := Some(RunResult(messages', steps', Cancelled));
      return;
    }
    if end.Looping? {
      var stop := ToolLoop(end.assessment.repeats, end.assessment.noProgress);
      AllReported(steps');
      AuthenticSummary(w, messages', stop);
      StopShaped(messages', steps', stop, Recorded(d, steps'));
      ReachedIsTold(w, RunResult(messages' + [Summary(stop)], steps', Stopped(stop)), reached);
      ended := Some(RunResult(messages' + [Summary(stop)], steps', Stopped(stop)));
      return;
    }
    ReachedCalm(w, steps', reached);
  }

  lemma ReachedIsTold(w: World, r: RunResult, reached: seq<(nat, Point)>)
    requires Reached(w, r.steps, reached) && CutAt(w, reached, r.outcome.Cancelled?)
    requires DiscardsSilent(w, r.steps) && Heard(w, r.steps) == Voices(r.messages)
    ensures WorldTold(w, r)
  {
    hide Reached, CutAt, DiscardsSilent, Heard, Voices;
  }

  lemma CalmIsTold(w: World, r: RunResult)
    requires Calm(w, r.steps) && Heard(w, r.steps) == Voices(r.messages) && !r.outcome.Cancelled?
    ensures WorldTold(w, r)
  {
    hide Reached, CutAt, DiscardsSilent, Heard, Voices, Passed, Uncancelled;
    ReachedAll(w, r.steps);
  }

  lemma ReachedCalm(w: World, steps: seq<Step>, reached: seq<(nat, Point)>)
    requires Reached(w, steps, reached) && CutAt(w, reached, false) && DiscardsSilent(w, steps)
    ensures Calm(w, steps)
  {
    hide Reached, CutAt, DiscardsSilent, Uncancelled;
    UncutIsUncancelled(w, steps, reached);
  }

  lemma DiscardTold(w: World, steps: seq<Step>, turn: nat, heard: seq<Response>, response: Response)
    requires Calm(w, steps) && Heard(w, steps) == heard + [response] && response.calls == [] && !response.speaks
    ensures
      var more := steps + [Discarded(turn)];
      Calm(w, more) && Heard(w, more) == heard && CallsOnly(turn, steps, more)
  {
    hide Passed, Heard, DiscardsSilent, AttemptsIn, CallsIn;
    WorldStep(w, steps, Discarded(turn));
    DiscardStep(w, steps, Discarded(turn));
  }

  /** One turn: a model is asked, and its response taken. */
  method TakeTurn(
    w: World, tools: bool, turn: nat, final: bool, failures: FailureBudget, detector: Detector, emptyRetries: nat,
    messages: seq<Message>, steps: seq<Step>, ghost bound: Option<Bound>)
    returns (ended: Option<RunResult>, messages': seq<Message>, steps': seq<Step>, emptyRetries': nat)
    requires Between(w, bound, messages, steps) && Heard(w, steps) == Voices(messages)
    requires Awaits(steps, turn) && AttemptsIn(steps, turn) == 0 == CallsIn(steps, turn) && Final(steps) == final
    requires detector.Valid() && detector.all == Recorded(w.digest, steps)
    requires failures.Open() && failures.Counts(steps) && emptyRetries == Idle(steps) <= MAX_EMPTY_RETRIES
    requires bound.Some? && !final ==> bound.value.used + Turns(steps) < bound.value.limit
    modifies detector, failures
    ensures ended.None? ==>
      && Between(w, bound, messages', steps') && Heard(w, steps') == Voices(messages')
      && detector.Valid() && detector.all == Recorded(w.digest, steps')
      && failures.Open() && failures.Counts(steps') && emptyRetries' == Idle(steps') <= MAX_EMPTY_RETRIES && !final
      && Turns(steps') == Turns(steps)
      && forall t | t != turn :: AttemptsIn(steps', t) == AttemptsIn(steps, t) && CallsIn(steps', t) == CallsIn(steps, t)
    ensures ended.Some? ==>
      var r := ended.value;
      && Judged(w, bound, r) && Turns(r.steps) == Turns(steps)
      && (failures.limit > 0 ==>
            && Failures(r.steps) <= failures.limit
            && (r.outcome == ModelError(AttemptLimit) <==> Failures(r.steps) == failures.limit))
      && (r.outcome.Stopped? ==> !r.outcome.stop.TurnLimit?)
      && (r.outcome == Answered(true) || r.outcome == Stopped(BudgetExhausted) ==> final)
  {
    hide Good, Recorded, Reports, Turns, Idle, Failures, Tried, ToolMessages, Critical, Repeats, NoProgress,
         MaxRepeats, MaxNoProgress, Window, Complete, CutShort, InOrder, RefusedAfter, Shaped, Reported, LoopTold,
         FromModel, Authentic, Detector.Valid, Passed, Heard, DiscardsSilent, AttemptsIn, CallsIn, Reached, CutAt,
         Responded, Awaits, FinishTold, Voices, Calm, WorldTold, Final, TurnSteps, AttemptSteps, Blamed, Judged;
    ghost var d := w.digest;
    ended, messages', emptyRetries' := None, messages, emptyRetries;
    var reply: Reply;
    ghost var tried: nat, reached;
    steps', reply, tried, reached := CompleteWithObserver(w, turn, failures, steps, bound);
    if reply.Interrupted? {
      CancelledIsJudged(w, bound, messages, steps', reached);
      ended := Some(RunResult(messages, steps', Cancelled));
      return;
    }
    if reply.Failure? {
      FailureIsBlamed(w, turn, reply.failure, steps', messages, tried);
      FailureIsJudged(w, bound, messages, steps', reached, reply.failure);
      ended := Some(RunResult(messages, steps', ModelError(reply.failure)));
      return;
    }
    ReachedCalm(w, steps', reached);
    RespondedFrom(w, turn, w.plan(turn).refs, tried, reply);
    ended, messages', steps', emptyRetries' :=
      TakeResponse(w, tools, turn, final, reply.response, detector, emptyRetries, messages, steps', bound);
  }

  method Run(w: World, maxTurns: nat, maxFailures: nat, tools: bool, budget: TurnBudget?) returns (r: RunResult)
    requires budget != null ==> budget.used <= budget.limit
    modifies if budget == null then {} else {budget}
    ensures Judged(w, if budget == null then None else Some(Bound(budget.limit, old(budget.used))), r)
    ensures Turns(r.steps) <= maxTurns
    ensures budget != null ==> budget.used == old(budget.used) + Turns(r.steps) <= budget.limit
    ensures maxFailures > 0 ==>
      && Failures(r.steps) <= maxFailures
      && (r.outcome == ModelError(AttemptLimit) <==> Failures(r.steps) == maxFailures)
    ensures r.outcome.Stopped? && r.outcome.stop.TurnLimit? ==>
      Turns(r.steps) == maxTurns && (budget != null ==> budget.used < budget.limit)
    ensures r.outcome == Stopped(BudgetExhausted) ==> budget != null && budget.used == budget.limit
    ensures r.outcome == Answered(true) ==> budget != null && budget.used == budget.limit
  {
    hide Good, Recorded, Reports, Turns, Idle, Failures, Tried, ToolMessages, Critical, Repeats, NoProgress,
         MaxRepeats, MaxNoProgress, Window, Complete, CutShort, InOrder, RefusedAfter, Shaped, Reported, LoopTold,
         FromModel, Authentic, Detector.Valid, Passed, Heard, DiscardsSilent, AttemptsIn, CallsIn, Reached, CutAt,
         Responded, Awaits, FinishTold, Voices, Calm, WorldTold, Final, TurnSteps, AttemptSteps, Blamed, Judged;
    ghost var d := w.digest;
    ghost var bound := if budget == null then None else Some(Bound(budget.limit, budget.used));
    var messages: seq<Message>, steps: seq<Step> := [], [];
    var detector := new Detector();
    var failures := new FailureBudget(maxFailures);
    var emptyRetries, turn := 0, 0;
    Nothing(d, bound);
    NothingYet(w);
    while turn < maxTurns
      invariant turn <= maxTurns && Turns(steps) == turn
      invariant Between(w, bound, messages, steps) && Heard(w, steps) == Voices(messages)
      invariant forall t | t >= turn :: AttemptsIn(steps, t) == 0 && CallsIn(steps, t) == 0
      invariant fresh(detector) && detector.Valid() && detector.all == Recorded(d, steps)
      invariant fresh(failures) && failures.Open() && failures.Counts(steps) && failures.limit == maxFailures
      invariant emptyRetries == Idle(steps) <= MAX_EMPTY_RETRIES
      invariant budget != null ==> budget.used == old(budget.used) + turn <= budget.limit
      decreases maxTurns - turn
    {
      if budget != null && budget.Remaining() == 0 {
        break;
      }
      var final := false;
      if budget != null {
        final := budget.Next();
      }
      PlainStep(d, bound, steps, TurnBegan(turn, final));
      BeginTold(w, steps, turn, final);
      steps := steps + [TurnBegan(turn, final)];
      var ended: Option<RunResult>;
      ended, messages, steps, emptyRetries :=
        TakeTurn(w, tools, turn, final, failures, detector, emptyRetries, messages, steps, bound);
      turn := turn + 1;
      if ended.Some? {
        return ended.value;
      }
    }
    var stop := if budget != null && budget.Remaining() == 0 then BudgetExhausted
                else TurnLimit(detector.MaxRepeatCount(), detector.MaxNoProgressCount());
    StopIsJudged(w, bound, messages, steps, stop);
    return RunResult(messages + [Summary(stop)], steps, Stopped(stop));
  }

  lemma NothingYet(w: World)
    ensures Calm(w, []) && Heard(w, []) == [] == Voices([])
    ensures forall t: nat :: AttemptsIn([], t) == 0 && CallsIn([], t) == 0
  {
  }

  lemma BeginTold(w: World, steps: seq<Step>, turn: nat, final: bool)
    requires Calm(w, steps)
    ensures
      var more := steps + [TurnBegan(turn, final)];
      && Calm(w, more) && Awaits(more, turn) && Heard(w, more) == Heard(w, steps)
      && forall t :: AttemptsIn(more, t) == AttemptsIn(steps, t) && CallsIn(more, t) == CallsIn(steps, t)
  {
    hide Passed, Heard, DiscardsSilent, AttemptsIn, CallsIn;
    UnheardStep(w, steps, TurnBegan(turn, final));
  }

  lemma CancelledIsJudged(
    w: World, bound: Option<Bound>, messages: seq<Message>, steps: seq<Step>, reached: seq<(nat, Point)>)
    requires Good(w.digest, bound, steps) && Authentic(w, messages) && Complete(messages)
    requires ToolMessages(messages) == Reports(steps) && Heard(w, steps) == Voices(messages)
    requires Reached(w, steps, reached) && CutAt(w, reached, true) && DiscardsSilent(w, steps)
    ensures Judged(w, bound, RunResult(messages, steps, Cancelled))
  {
    hide Good, Shaped, Reported, LoopTold, FinishTold, Authentic, Heard, Voices, Reached, CutAt, DiscardsSilent,
         Complete, ToolMessages, Reports, Recorded, WorldTold;
    ErrorShaped(messages, steps, Cancelled, Recorded(w.digest, steps));
    ReachedIsTold(w, RunResult(messages, steps, Cancelled), reached);
  }

  lemma FailureIsJudged(
    w: World, bound: Option<Bound>, messages: seq<Message>, steps: seq<Step>, reached: seq<(nat, Point)>,
    failure: ModelFailure)
    requires Good(w.digest, bound, steps) && !Critical(Recorded(w.digest, steps))
    requires Authentic(w, messages) && Complete(messages)
    requires ToolMessages(messages) == Reports(steps) && Heard(w, steps) == Voices(messages)
    requires Reached(w, steps, reached) && CutAt(w, reached, false) && DiscardsSilent(w, steps)
    requires Blamed(w, RunResult(messages, steps, ModelError(failure)))
    ensures Judged(w, bound, RunResult(messages, steps, ModelError(failure)))
  {
    hide Good, Shaped, Reported, LoopTold, FinishTold, Authentic, Heard, Voices, Reached, CutAt, DiscardsSilent,
         Complete, ToolMessages, Reports, Recorded, Critical, Blamed, WorldTold;
    ErrorShaped(messages, steps, ModelError(failure), Recorded(w.digest, steps));
    ReachedIsTold(w, RunResult(messages, steps, ModelError(failure)), reached);
  }

  lemma StopIsJudged(w: World, bound: Option<Bound>, messages: seq<Message>, steps: seq<Step>, stop: Stop)
    requires Between(w, bound, messages, steps) && Heard(w, steps) == Voices(messages)
    requires stop.BudgetExhausted? ||
      stop == TurnLimit(MaxRepeats(Recorded(w.digest, steps)), MaxNoProgress(Recorded(w.digest, steps)))
    ensures Judged(w, bound, RunResult(messages + [Summary(stop)], steps, Stopped(stop)))
  {
    hide Good, Shaped, Reported, LoopTold, FinishTold, Authentic, Heard, Voices, Calm, Complete, ToolMessages, Reports,
         Recorded, Critical, WorldTold, MaxRepeats, MaxNoProgress, RefusedAfter;
    AllReported(steps);
    AuthenticSummary(w, messages, stop);
    StopShaped(messages, steps, stop, Recorded(w.digest, steps));
    CalmIsTold(w, RunResult(messages + [Summary(stop)], steps, Stopped(stop)));
  }

  lemma FailureIsBlamed(
    w: World, turn: nat, failure: ModelFailure, steps: seq<Step>, messages: seq<Message>, tried: nat)
    requires Awaits(steps, turn)
    requires failure.Unplanned? <==> w.plan(turn).Refused? || w.plan(turn).refs == []
    requires w.plan(turn).Eligible? ==>
      InOrder(w, turn, w.plan(turn).refs, tried, Failure(failure)) && AttemptsIn(steps, turn) == tried
    requires failure.AttemptLimit? ==> steps[|steps| - 1].ProviderFailed?
    ensures Blamed(w, RunResult(messages, steps, ModelError(failure)))
  {
    hide AttemptsIn;
  }

  /** A run ends as cancelled if and only if it came to a point at which it was
      cancelled; then that is the last point it came to. */
  lemma CancelledExactly(w: World, bound: Option<Bound>, r: RunResult) returns (reached: seq<(nat, Point)>)
    requires Judged(w, bound, r)
    ensures Reached(w, r.steps, reached)
    ensures r.outcome.Cancelled? <==> exists p :: p in reached && w.cancelled(p.0, p.1)
    ensures forall i | 0 <= i < |reached| - 1 :: !w.cancelled(reached[i].0, reached[i].1)
    ensures (forall t, p :: !w.cancelled(t, p)) ==> !r.outcome.Cancelled?
  {
    hide Good, Shaped, LoopTold, Reported, Authentic, Reached, DiscardsSilent, Heard, Blamed, FinishTold, Voices;
    reached :| Reached(w, r.steps, reached) && CutAt(w, reached, r.outcome.Cancelled?);
    if p :| p in reached && w.cancelled(p.0, p.1) {
      var i :| 0 <= i < |reached| && reached[i] == p;
    }
  }

  /** A loop stop comes with the first call that brings its signature to twenty
      of the last thirty executed calls, neither earlier nor later. */
  lemma LoopStopsAtThreshold(w: World, bound: Option<Bound>, r: RunResult)
    requires Judged(w, bound, r)
    requires r.outcome.Stopped? && r.outcome.stop.ToolLoop?
    ensures FirstCritical(Recorded(w.digest, r.steps)) && r.outcome.stop.repeats == CRITICAL_THRESHOLD
    ensures 1 <= r.outcome.stop.noProgress <= r.outcome.stop.repeats
  {
    FirstCriticalIsAtThreshold(Recorded(w.digest, r.steps));
    NoProgressWithinRepeats(Recorded(w.digest, r.steps));
  }

  function Traces(results: seq<RunResult>): seq<seq<Step>> {
    seq(|results|, i requires 0 <= i < |results| => results[i].steps)
  }

  /** The runs of one session, one after the other on one budget: together they
      start at most `limit` turns, and no tool on the last. */
  method RunSession(worlds: seq<World>, maxTurns: nat, maxFailures: nat, tools: bool, limit: int)
    returns (results: seq<RunResult>)
    ensures |results| == |worlds|
    ensures
      var most := if limit <= 0 then DEFAULT_MAX_TURNS else limit;
      var steps := Together(Traces(results));
      && Shared(most, Traces(results)) && Turns(steps) <= most
      && forall i: nat | i < |steps| && steps[i].ToolStarted? :: Turns(steps[..i]) < most
  {
    hide Judged, Turns, Together, Lawful, Shared, Failures;
    var budget := new TurnBudget(limit);
    results := [];
    ghost var traces: seq<seq<Step>> := [];
    NoRuns(budget.limit);
    for k := 0 to |worlds|
      invariant fresh(budget) && |results| == k && traces == Traces(results)
      invariant Shared(budget.limit, traces) && budget.used == Turns(Together(traces)) <= budget.limit
    {
      var r := Run(worlds[k], maxTurns, maxFailures, tools, budget);
      GoodIsLawful(worlds[k], Bound(budget.limit, Turns(Together(traces))), r);
      SharedSnoc(budget.limit, traces, r.steps);
      results, traces := results + [r], traces + [r.steps];
      assert traces == Traces(results);
    }
    forall i: nat | i < |Together(traces)| && Together(traces)[i].ToolStarted?
      ensures Turns(Together(traces)[..i]) < budget.limit
    {
      SharedBudget(budget.limit, traces, i);
    }
  }

  lemma NoRuns(limit: nat)
    ensures Shared(limit, []) && Turns(Together([])) == 0
  {
  }

  lemma GoodIsLawful(w: World, bound: Bound, r: RunResult)
    requires Judged(w, Some(bound), r)
    ensures Lawful(bound, r.steps)
  {
  }

  lemma RespondedFrom(w: World, turn: nat, refs: seq<string>, tried: nat, reply: Reply)
    requires InOrder(w, turn, refs, tried, reply) && reply.Completed?
    ensures FromModel(w, reply.response)
  {
  }

  lemma AllReported(steps: seq<Step>)
    ensures RefusedAfter(Reports(steps), Reports(steps))
  {
  }

  lemma Nothing(d: Digest, bound: Option<Bound>)
    ensures Good(d, bound, []) && Recorded(d, []) == [] && !Critical([]) && Reports([]) == [] == ToolMessages([])
    ensures Turns([]) == Failures([]) == Idle([]) == 0 && Complete([])
    ensures forall w :: Authentic(w, [])
  {
  }
}
