/**
 One end-user turn around the engine: reserve a number, run, append the turn to
 the transcript, report. The log holds the emitted events and the appends in
 the order they happen.
 */
module ReplyLoop {
  import opened Wrappers
  import opened LoopSafety
  import opened Trace
  import opened Engine

  datatype Event = RunStarted | Progress(step: Step) | RunFinished | RunFailed

  datatype Effect =
    | Emit(seqNumber: int, event: Event)
    | Append(seqNumber: int, messages: seq<Message>, ok: bool)

  /** The transcript store's answers during one reply. */
  datatype Store = Store(reserved: Option<int>, timestampLoads: bool, appends: bool)

  datatype ReplyResult = Invalid | NotReserved | NotPrepared | Ended(run: RunResult, replied: bool)

  predicate Terminal(e: Effect) { e.Emit? && (e.event.RunFinished? || e.event.RunFailed?) }

  /** Steps an observer is told of. */
  predicate Visible(s: Step) {
    s.ModelStarted? || s.Delta? || s.ToolStarted? || s.ToolFinished?
  }

  function Told(n: int, steps: seq<Step>): seq<Effect> {
    if steps == [] then []
    else
      var last := steps[|steps| - 1];
      Told(n, steps[..|steps| - 1]) + if Visible(last) then [Emit(n, Progress(last))] else []
  }

  predicate Starts(e: Effect) { e.Emit? && e.event.Progress? && e.event.step.ToolStarted? }

  predicate Finishes(e: Effect, started: Effect)
    requires Starts(started)
  {
    && e.Emit? && e.seqNumber == started.seqNumber && e.event.Progress? && e.event.step.ToolFinished?
    && e.event.step.call == started.event.step.call && e.event.step.turn == started.event.step.turn
  }

  /** Every tool start is directly followed by the finish of the same call. */
  ghost predicate PairedLog(log: seq<Effect>) {
    forall i | 0 <= i < |log| && Starts(log[i]) :: i + 1 < |log| && Finishes(log[i + 1], log[i])
  }

  ghost predicate Stamped(log: seq<Effect>, n: int) {
    forall i | 0 <= i < |log| :: log[i].seqNumber == n
  }

  /** Only progress: nothing terminal and no append. */
  ghost predicate Running(log: seq<Effect>) {
    forall i | 0 <= i < |log| :: log[i].Emit? && !Terminal(log[i])
  }

  /** One terminal event, and it is last; an append only right before it. */
  ghost predicate Terminated(log: seq<Effect>) {
    && log != [] && Terminal(log[|log| - 1])
    && (forall i | 0 <= i < |log| - 1 :: !Terminal(log[i]))
    && (forall i | 0 <= i < |log| && log[i].Append? :: i == |log| - 2)
  }

  lemma {:induction false} ToldIs(n: int, steps: seq<Step>)
    requires Paired(steps)
    ensures PairedLog(Told(n, steps)) && Stamped(Told(n, steps), n) && Running(Told(n, steps))
    decreases |steps|
  {
    if steps != [] {
      var last := steps[|steps| - 1];
      if last.ToolFinished? {
        var rest := steps[..|steps| - 2];
        ToldIs(n, rest);
        assert steps[..|steps| - 1][..|steps| - 2] == rest;
        assert steps[..|steps| - 1][|steps| - 2] == ToolStarted(last.turn, last.call);
        assert Told(n, steps) ==
          Told(n, rest) + [Emit(n, Progress(ToolStarted(last.turn, last.call)))] + [Emit(n, Progress(last))];
      } else {
        ToldIs(n, steps[..|steps| - 1]);
      }
    }
  }

  method TellSteps(before: seq<Effect>, n: int, steps: seq<Step>) returns (log: seq<Effect>)
    ensures log == before + Told(n, steps)
  {
    log := before;
    assert steps[..0] == [];
    for i := 0 to |steps|
      invariant log == before + Told(n, steps[..i])
    {
      assert steps[..i + 1][..i] == steps[..i];
      if Visible(steps[i]) {
        log := log + [Emit(n, Progress(steps[i]))];
      }
    }
    assert steps[..|steps|] == steps;
  }

  lemma Ends(n: int, told: seq<Effect>, last: Effect)
    requires PairedLog(told) && Stamped(told, n) && Running(told)
    requires Terminal(last) && last.seqNumber == n
    ensures var log := told + [last]; PairedLog(log) && Stamped(log, n) && Terminated(log)
    ensures forall messages, ok ::
      var log := told + [Append(n, messages, ok)] + [last];
      PairedLog(log) && Stamped(log, n) && Terminated(log)
  {
  }

  /** A reply that passes input validation emits exactly one terminal event, last;
      pairs every tool start with its finish; stamps everything after the
      reservation with the reserved number; and finishes, a store being present,
      only right after a successful append at that number. */
  method ReplyTo(w: World, maxTurns: nat, valid: bool, store: Option<Store>, prepares: bool)
    returns (log: seq<Effect>, result: ReplyResult)
    ensures result.Invalid? <==> !valid
    ensures result.Invalid? ==> log == []
    ensures !result.Invalid? ==> Terminated(log) && PairedLog(log)
    ensures result.NotReserved? <==> valid && store.Some? && store.value.reserved.None?
    ensures result.NotReserved? ==> log == [Emit(0, RunFailed)]
    ensures !result.Invalid? && !result.NotReserved? ==>
      Stamped(log, if store.Some? then store.value.reserved.value else 0)
    ensures !result.Invalid? ==>
      (log[|log| - 1].event.RunFinished? <==> result.Ended? && result.replied)
    ensures result.Ended? && store.Some? ==>
      var run := result.run;
      && (run.outcome.Answered? || run.outcome.Stopped? <==> |log| >= 2 && log[|log| - 2].Append?)
      && (|log| >= 2 && log[|log| - 2].Append? ==>
            log[|log| - 2] == Append(store.value.reserved.value, run.messages, store.value.appends))
      && (result.replied <==> run.outcome.Answered? && store.value.appends)
    ensures result.Ended? && store.None? ==> (result.replied <==> result.run.outcome.Answered?)
    ensures store.None? ==> forall e | e in log :: e.Emit?
    ensures result.Ended? ==> Judged(w, None, result.run)
  {
    hide Paired, Judged, Told, Turns, Failures;
    log := [];
    if !valid {
      return [], Invalid;
    }
    var n := 0;
    if store.Some? {
      if store.value.reserved.None? {
        return [Emit(0, RunFailed)], NotReserved;
      }
      n := store.value.reserved.value;
      if !store.value.timestampLoads {
        return [Emit(n, RunFailed)], NotPrepared;
      }
    }
    log := [Emit(n, RunStarted)];
    if !prepares {
      return log + [Emit(n, RunFailed)], NotPrepared;
    }
    var run := Engine.Run(w, maxTurns, 0, true, null);
    JudgedIsPaired(w, run);
    ToldIs(n, run.steps);
    log := TellSteps(log, n, run.steps);
    assert PairedLog(log) && Stamped(log, n) && Running(log);
    var append := Append(n, run.messages, store.Some? && store.value.appends);
    Ends(n, log, Emit(n, RunFailed));
    Ends(n, log, Emit(n, RunFinished));
    if !run.outcome.Answered? {
      if run.outcome.Stopped? && store.Some? {
        log := log + [append];
      }
      return log + [Emit(n, RunFailed)], Ended(run, false);
    }
    if store.Some? {
      log := log + [append];
      if !store.value.appends {
        return log + [Emit(n, RunFailed)], Ended(run, false);
      }
    }
    return log + [Emit(n, RunFinished)], Ended(run, true);
  }

  lemma JudgedIsPaired(w: World, r: RunResult)
    requires Judged(w, None, r)
    ensures Paired(r.steps)
  {
  }
}
