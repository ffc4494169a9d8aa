/**
 The byte-accounted send queue of one browser connection: any number of
 goroutines enqueue, one writes, and none takes a lock. Every atomic access is
 one step, and steps interleave freely.
 */
module Queue {
  import opened Base64
  import opened Transport

  type Frame = seq<byte>

  /** Where one enqueueing goroutine stands. */
  datatype Caller =
    | Idle
    | Entered(frame: Frame)    // the connection was live
    | Reserved(frame: Frame)   // its bytes were added and fit
    | BackingOut(frame: Frame) // its bytes were added and must be taken back

  /** Where the writing goroutine stands. */
  datatype Writer = Waiting | Popped(frame: Frame) | Sending(frame: Frame) | Stopped

  datatype State = State(
    queuedBytes: int,
    queue: seq<Frame>,
    callers: seq<Caller>,
    writer: Writer,
    cancelled: bool,
    accepted: seq<Frame>, // every frame an enqueue reported as accepted
    sent: seq<Frame>)     // every frame handed to the stream

  datatype Step =
    | Enter(t: nat, frame: Frame)
    | Add(t: nat)
    | Push(t: nat)
    | BackOut(t: nat)
    | Pop
    | Settle
    | Send(ok: bool)
    | Quit
    | Cancel

  predicate Enabled(s: State, step: Step) {
    match step
    case Enter(t, _) => t < |s.callers| && s.callers[t].Idle?
    case Add(t) => t < |s.callers| && s.callers[t].Entered?
    case Push(t) => t < |s.callers| && s.callers[t].Reserved?
    case BackOut(t) => t < |s.callers| && s.callers[t].BackingOut?
    case Pop => s.writer.Waiting? && s.queue != []
    case Settle => s.writer.Popped?
    case Send(_) => s.writer.Sending?
    case Quit => s.writer.Waiting? && s.cancelled
    case Cancel => true
  }

  /** One atomic access. */
  function Next(s: State, step: Step): State
    requires Enabled(s, step)
  {
    match step
    case Enter(t, frame) =>
      if s.cancelled then s else s.(callers := s.callers[t := Entered(frame)])
    case Add(t) =>
      var frame := s.callers[t].frame;
      var total := s.queuedBytes + |frame|;
      s.(queuedBytes := total,
         callers := s.callers[t := if total > MAX_QUEUE_BYTES then BackingOut(frame) else Reserved(frame)])
    case Push(t) =>
      var frame := s.callers[t].frame;
      if |s.queue| < MAX_QUEUE_FRAMES then
        s.(queue := s.queue + [frame], accepted := s.accepted + [frame], callers := s.callers[t := Idle])
      else s.(callers := s.callers[t := BackingOut(frame)])
    case BackOut(t) =>
      s.(queuedBytes := s.queuedBytes - |s.callers[t].frame|, callers := s.callers[t := Idle])
    case Pop => s.(queue := s.queue[1..], writer := Popped(s.queue[0]))
    case Settle => s.(queuedBytes := s.queuedBytes - |s.writer.frame|, writer := Sending(s.writer.frame))
    case Send(ok) =>
      if ok then s.(sent := s.sent + [s.writer.frame], writer := Waiting)
      else s.(writer := Stopped, cancelled := true)
    case Quit => s.(writer := Stopped)
    case Cancel => s.(cancelled := true)
  }

  function Initial(callers: nat): State {
    State(0, [], seq(callers, _ => Idle), Waiting, false, [], [])
  }

  /** The states of a run, one more than its steps. */
  predicate Run(callers: nat, steps: seq<Step>, states: seq<State>) {
    && |states| == |steps| + 1
    && states[0] == Initial(callers)
    && forall i | 0 <= i < |steps| :: Enabled(states[i], steps[i]) && states[i + 1] == Next(states[i], steps[i])
  }

  // ------------------------------------------------- accounting

  function Bytes(frames: seq<Frame>): nat {
    if frames == [] then 0 else |frames[0]| + Bytes(frames[1..])
  }

  /** Bytes a caller has added to the counter and not yet settled. */
  function Held(c: Caller): nat {
    if c.Reserved? || c.BackingOut? then |c.frame| else 0
  }

  /** Bytes a caller may still push. */
  function Pushable(c: Caller): nat {
    if c.Reserved? then |c.frame| else 0
  }

  function Sum(callers: seq<Caller>, f: Caller -> nat): nat {
    if callers == [] then 0 else f(callers[0]) + Sum(callers[1..], f)
  }

  function WriterHeld(w: Writer): nat {
    if w.Popped? then |w.frame| else 0
  }

  function Unsent(s: State): seq<Frame> {
    (if s.writer.Popped? || s.writer.Sending? then [s.writer.frame] else []) + s.queue
  }

  /** The counter and the limits. */
  ghost predicate Balanced(s: State) {
    && s.queuedBytes == Bytes(s.queue) + Sum(s.callers, Held) + WriterHeld(s.writer)
    && Bytes(s.queue) + Sum(s.callers, Pushable) <= MAX_QUEUE_BYTES
    && |s.queue| <= MAX_QUEUE_FRAMES
  }

  /** First in, first out. */
  predicate InOrder(s: State) {
    && (!s.writer.Stopped? ==> s.accepted == s.sent + Unsent(s))
    && s.sent <= s.accepted
  }

  ghost predicate Accounted(s: State) {
    Balanced(s) && InOrder(s)
  }

  lemma {:induction false} BytesAppend(frames: seq<Frame>, frame: Frame)
    ensures Bytes(frames + [frame]) == Bytes(frames) + |frame|
  {
    if frames == [] {
      assert frames + [frame] == [frame];
      assert [frame][1..] == [];
    } else {
      assert (frames + [frame])[1..] == frames[1..] + [frame];
      BytesAppend(frames[1..], frame);
    }
  }

  lemma {:induction false} SumUpdate(callers: seq<Caller>, f: Caller -> nat, t: nat, c: Caller)
    requires t < |callers|
    ensures Sum(callers[t := c], f) == Sum(callers, f) - f(callers[t]) + f(c)
  {
    if t == 0 {
      assert callers[0 := c][1..] == callers[1..];
    } else {
      assert callers[t := c][1..] == callers[1..][t - 1 := c];
      SumUpdate(callers[1..], f, t - 1, c);
    }
  }

  lemma {:induction false} SumOrdered(callers: seq<Caller>)
    ensures Sum(callers, Pushable) <= Sum(callers, Held)
  {
    if callers != [] {
      SumOrdered(callers[1..]);
    }
  }

  lemma {:induction false} SumIdle(callers: seq<Caller>, f: Caller -> nat)
    requires forall c | c in callers :: f(c) == 0
    ensures Sum(callers, f) == 0
  {
    if callers != [] {
      SumIdle(callers[1..], f);
    }
  }

  lemma CallerKeepsBalance(s: State, t: nat, s': State)
    requires Balanced(s) && t < |s.callers| && s'.writer == s.writer
    requires |s'.callers| == |s.callers| && s'.callers == s.callers[t := s'.callers[t]]
    requires |s'.queue| <= MAX_QUEUE_FRAMES
    requires s'.queuedBytes - Bytes(s'.queue) - Held(s'.callers[t]) ==
             s.queuedBytes - Bytes(s.queue) - Held(s.callers[t])
    requires
      || Bytes(s'.queue) + Pushable(s'.callers[t]) <= Bytes(s.queue) + Pushable(s.callers[t])
      || s'.queuedBytes <= MAX_QUEUE_BYTES
    ensures Balanced(s')
  {
    SumUpdate(s.callers, Held, t, s'.callers[t]);
    SumUpdate(s.callers, Pushable, t, s'.callers[t]);
    SumOrdered(s'.callers);
    hide Sum, Bytes;
  }

  lemma StepKeepsBalance(s: State, step: Step)
    requires Balanced(s) && Enabled(s, step)
    ensures Balanced(Next(s, step))
  {
    var s' := Next(s, step);
    match step {
      case Enter(t, _) => CallerKeepsBalance(s, t, s');
      case Add(t) => CallerKeepsBalance(s, t, s');
      case Push(t) =>
        BytesAppend(s.queue, s.callers[t].frame);
        CallerKeepsBalance(s, t, s');
      case BackOut(t) => CallerKeepsBalance(s, t, s');
      case Pop =>
      case Settle =>
      case Send(_) =>
      case Quit =>
      case Cancel =>
    }
  }

  lemma PushKeepsOrder(s: State, t: nat)
    requires InOrder(s) && Enabled(s, Push(t))
    ensures InOrder(Next(s, Push(t)))
  {
    var frame := s.callers[t].frame;
    assert s.sent + Unsent(s) + [frame] == s.sent + (Unsent(s) + [frame]);
    assert Unsent(s.(queue := s.queue + [frame])) == Unsent(s) + [frame];
  }

  lemma StepKeepsOrder(s: State, step: Step)
    requires InOrder(s) && Enabled(s, step)
    ensures InOrder(Next(s, step))
  {
    var s' := Next(s, step);
    match step {
      case Push(t) => PushKeepsOrder(s, t);
      case Pop =>
        assert s.queue == [s.queue[0]] + s.queue[1..];
      case Send(ok) =>
        assert s.sent + ([s.writer.frame] + s.queue) == s.sent + [s.writer.frame] + s.queue;
      case _ =>
    }
  }

  /** Every step keeps the books. */
  lemma StepKeepsAccounts(s: State, step: Step)
    requires Accounted(s) && Enabled(s, step)
    ensures Accounted(Next(s, step))
  {
    StepKeepsBalance(s, step);
    StepKeepsOrder(s, step);
  }

  /** Under every interleaving the counter is the bytes queued plus the bytes
      added or popped and not yet settled; the queue never holds more bytes or
      frames than it may; and frames leave in the order they were accepted,
      none lost or doubled while the writer runs. */
  lemma {:induction false} RunKeepsAccounts(callers: nat, steps: seq<Step>, states: seq<State>, i: nat)
    requires Run(callers, steps, states) && i < |states|
    ensures Accounted(states[i])
    ensures Bytes(states[i].queue) <= MAX_QUEUE_BYTES
  {
    if i == 0 {
      SumIdle(states[0].callers, Held);
      SumIdle(states[0].callers, Pushable);
    } else {
      RunKeepsAccounts(callers, steps, states, i - 1);
      StepKeepsAccounts(states[i - 1], steps[i - 1]);
    }
  }

  /** What other calls and the writer hold beside the queue. */
  function InFlight(s: State): nat {
    Sum(s.callers, Held) + WriterHeld(s.writer)
  }

  /** The counter matches the queue exactly when nothing is held beside it, and
      so whenever no call is mid-way. */
  lemma QuietCounter(s: State)
    requires Accounted(s)
    ensures s.queuedBytes == Bytes(s.queue) <==> InFlight(s) == 0
    ensures !s.writer.Popped? && (forall c | c in s.callers :: c.Idle? || c.Entered?) ==> InFlight(s) == 0
  {
    if !s.writer.Popped? && forall c | c in s.callers :: c.Idle? || c.Entered? {
      SumIdle(s.callers, Held);
    }
  }

  /** At every point of every run, a frame is refused for size exactly when it does
      not fit beside what is queued and what other callers and the writer hold.
      Without those it is refused exactly when it does not fit beside the queue,
      so an empty queue takes any frame within the limit. */
  lemma RefusedExactly(callers: nat, steps: seq<Step>, states: seq<State>, i: nat, t: nat)
    requires Run(callers, steps, states) && i < |steps| && steps[i] == Add(t)
    ensures
      var s, s' := states[i], states[i + 1];
      && t < |s.callers| && t < |s'.callers| && s.callers[t].Entered?
      && var frame := s.callers[t].frame;
      && (s'.callers[t] == BackingOut(frame) <==> Bytes(s.queue) + InFlight(s) + |frame| > MAX_QUEUE_BYTES)
      && (s'.callers[t] == Reserved(frame) <==> Bytes(s.queue) + InFlight(s) + |frame| <= MAX_QUEUE_BYTES)
      && (s.queue == [] && InFlight(s) == 0 && |frame| <= MAX_SERVER_FRAME_BYTES ==>
            Enabled(s', Push(t)) && Next(s', Push(t)).queue == [frame])
  {
    RunKeepsAccounts(callers, steps, states, i);
    assert Enabled(states[i], steps[i]) && states[i + 1] == Next(states[i], steps[i]);
  }

  /** A call that no other call and not the writer comes between: the frame is
      accepted and queued last exactly when the connection is live and the frame
      fits beside the queue, by bytes and by number; otherwise all is as it was. */
  lemma CallAlone(s: State, t: nat, frame: Frame) returns (steps: seq<Step>, states: seq<State>)
    requires Accounted(s) && InFlight(s) == 0 && t < |s.callers| && s.callers[t].Idle?
    ensures |steps| > 0 && |states| == |steps| + 1 && states[0] == s
    ensures forall i | 0 <= i < |steps| ::
      && Enabled(states[i], steps[i]) && states[i + 1] == Next(states[i], steps[i])
      && (steps[i] == Enter(t, frame) || steps[i] == Add(t) || steps[i] == Push(t) || steps[i] == BackOut(t))
    ensures
      var s' := states[|steps|];
      && s'.callers == s.callers
      && if !s.cancelled && Bytes(s.queue) + |frame| <= MAX_QUEUE_BYTES && |s.queue| < MAX_QUEUE_FRAMES
         then s' == s.(queue := s.queue + [frame], accepted := s.accepted + [frame],
                       queuedBytes := Bytes(s.queue + [frame]))
         else s' == s
  {
    BytesAppend(s.queue, frame);
    var s1 := Next(s, Enter(t, frame));
    if s.cancelled {
      return [Enter(t, frame)], [s, s1];
    }
    var s2 := Next(s1, Add(t));
    if s2.callers[t].BackingOut? {
      var s3 := Next(s2, BackOut(t));
      assert s3.callers == s.callers;
      return [Enter(t, frame), Add(t), BackOut(t)], [s, s1, s2, s3];
    }
    var s3 := Next(s2, Push(t));
    if |s.queue| < MAX_QUEUE_FRAMES {
      assert s3.callers == s.callers;
      return [Enter(t, frame), Add(t), Push(t)], [s, s1, s2, s3];
    }
    var s4 := Next(s3, BackOut(t));
    assert s4.callers == s.callers;
    return [Enter(t, frame), Add(t), Push(t), BackOut(t)], [s, s1, s2, s3, s4];
  }

  /** At every point of every run a reserved frame is accepted exactly when fewer
      frames are queued than may be. */
  lemma PushedExactly(callers: nat, steps: seq<Step>, states: seq<State>, i: nat, t: nat)
    requires Run(callers, steps, states) && i < |steps| && steps[i] == Push(t)
    ensures
      var s, s' := states[i], states[i + 1];
      && t < |s.callers| && t < |s'.callers| && s.callers[t].Reserved?
      && var frame := s.callers[t].frame;
      && s'.queuedBytes == s.queuedBytes
      && (|s.queue| < 2048 <==>
            s'.accepted == s.accepted + [frame] && s'.queue == s.queue + [frame] && s'.callers[t].Idle?)
      && (|s.queue| == 2048 <==>
            s'.accepted == s.accepted && s'.queue == s.queue && s'.callers[t] == BackingOut(frame))
  {
    RunKeepsAccounts(callers, steps, states, i);
    assert Enabled(states[i], steps[i]) && states[i + 1] == Next(states[i], steps[i]);
  }

  lemma StepOf(callers: nat, steps: seq<Step>, states: seq<State>, i: nat)
    requires Run(callers, steps, states) && i < |steps|
    ensures i + 1 < |states| && Enabled(states[i], steps[i]) && states[i + 1] == Next(states[i], steps[i])
    ensures states[0] == Initial(callers)
  {
  }

  /** A connection is cancelled exactly when it was cancelled from outside or a send
      failed, and the writer has stopped exactly when a send failed or it quit; so
      both are final. */
  lemma {:induction false} CancelledExactly(callers: nat, steps: seq<Step>, states: seq<State>, i: nat)
    requires Run(callers, steps, states) && i <= |steps|
    ensures states[i].cancelled <==> exists k | 0 <= k < i :: steps[k] == Cancel || steps[k] == Send(false)
    ensures states[i].writer.Stopped? <==> exists k | 0 <= k < i :: steps[k] == Quit || steps[k] == Send(false)
  {
    if i > 0 {
      CancelledExactly(callers, steps, states, i - 1);
      StepOf(callers, steps, states, i - 1);
    } else {
      assert states[0] == Initial(callers);
    }
  }

  /** What a step does to the frames sent and to a caller who enters: exactly a
      successful send adds the frame that was being sent, and exactly on a live
      connection a call goes on. */
  lemma SentExactly(callers: nat, steps: seq<Step>, states: seq<State>, i: nat)
    requires Run(callers, steps, states) && i < |steps|
    ensures
      var s, s', step := states[i], states[i + 1], steps[i];
      && (step == Send(true) ==> s.writer.Sending? && s'.sent == s.sent + [s.writer.frame])
      && (step != Send(true) ==> s'.sent == s.sent)
      && (step.Enter? ==>
            && step.t < |s.callers| && |s'.callers| == |s.callers|
            && (s'.callers[step.t] == Entered(step.frame) <==> !s.cancelled) && (s.cancelled ==> s' == s))
  {
    StepOf(callers, steps, states, i);
  }

  /** A refusal that the queue alone does not explain: one frame is queued, a second
      does not fit beside it and is being taken back, and in that moment a third is
      refused though it fits beside the first. Any lengths will do that allow it:
      two frames of most of the limit and a short one. */
  lemma RefusedBesideBackOut(a: Frame, b: Frame, c: Frame) returns (steps: seq<Step>, states: seq<State>)
    requires |a| <= MAX_QUEUE_BYTES < |a| + |b| && |a| + |c| <= MAX_QUEUE_BYTES
    ensures Run(2, steps, states)
    ensures
      var last := states[|steps|];
      && last.callers == [BackingOut(b), BackingOut(c)]
      && last.queue == [a] && Bytes(last.queue) + |c| <= MAX_QUEUE_BYTES
  {
    var before := State(|a|, [a], [Idle, Idle], Waiting, false, [a], []);
    steps, states := OneQueued(a);
    hide Run;
    var s4 := before.(callers := [Entered(b), Idle]);
    steps, states := Extended(2, steps, states, Enter(0, b), s4);
    var s5 := before.(callers := [BackingOut(b), Idle], queuedBytes := |a| + |b|);
    steps, states := Extended(2, steps, states, Add(0), s5);
    var s6 := s5.(callers := [BackingOut(b), Entered(c)]);
    steps, states := Extended(2, steps, states, Enter(1, c), s6);
    var s7 := s5.(callers := [BackingOut(b), BackingOut(c)], queuedBytes := |a| + |b| + |c|);
    steps, states := Extended(2, steps, states, Add(1), s7);
    assert Bytes([a]) == |a| + Bytes([a][1..]);
  }

  /** A run that leaves one frame in the queue. */
  lemma OneQueued(a: Frame) returns (steps: seq<Step>, states: seq<State>)
    requires |a| <= MAX_QUEUE_BYTES
    ensures Run(2, steps, states)
    ensures states[|steps|] == State(|a|, [a], [Idle, Idle], Waiting, false, [a], [])
  {
    var s0 := State(0, [], [Idle, Idle], Waiting, false, [], []);
    assert Initial(2) == s0;
    steps, states := [], [s0];
    steps, states := Extended(2, steps, states, Enter(0, a), s0.(callers := [Entered(a), Idle]));
    steps, states := Extended(2, steps, states, Add(0), s0.(callers := [Reserved(a), Idle], queuedBytes := |a|));
    steps, states := Extended(2, steps, states, Push(0), State(|a|, [a], [Idle, Idle], Waiting, false, [a], []));
  }

  lemma Extended(callers: nat, steps: seq<Step>, states: seq<State>, step: Step, s: State)
    returns (steps': seq<Step>, states': seq<State>)
    requires Run(callers, steps, states) && |states| == |steps| + 1
    requires Enabled(states[|steps|], step) && s == Next(states[|steps|], step)
    ensures Run(callers, steps', states') && |states'| == |steps'| + 1 && states'[|steps'|] == s
  {
    steps', states' := steps + [step], states + [s];
  }
}
