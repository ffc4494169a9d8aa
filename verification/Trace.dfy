/**
 What an engine run leaves behind: the messages it adds to the conversation and
 the steps an observer could see, with the properties runs are held to.
 */
module Trace {
  import opened Wrappers
  import opened LoopSafety

  const MAX_EMPTY_RETRIES := 3

  /** A tool call after normalisation: the id is trimmed and may be blank. */
  datatype Call = Call(id: string, name: string, arguments: string)

  /** A model's response: its calls, whether its reply holds text or media, and
      the provider's finish reason. */
  datatype Response = Response(calls: seq<Call>, speaks: bool, finish: string)

  /** Why a run stopped; a turn limit tells the highest counts of the run. */
  datatype Stop =
    | ToolLoop(repeats: nat, noProgress: nat)
    | TurnLimit(repeats: nat, noProgress: nat)
    | BudgetExhausted

  datatype Message =
    | Said(response: Response)
    | Result(id: string, output: string, failed: bool)
    | Partless
    | Summary(stop: Stop)

  datatype Step =
    | TurnBegan(turn: nat, final: bool)
    | ModelStarted(turn: nat, ref: string)
    | Delta(turn: nat, ref: string, text: string)
    | FitFailed(turn: nat, ref: string)
    | ProviderFailed(turn: nat, ref: string)
    | Discarded(turn: nat)
    | ToolStarted(turn: nat, call: Call)
    | ToolFinished(turn: nat, call: Call, output: string, failed: bool)

  /** How calls and outputs are reduced before they are compared. */
  datatype Digest = Digest(hash: string -> string, normal: string -> string, trim: string -> string)

  function EntryOf(d: Digest, call: Call, output: string): Entry {
    Entry(d.hash(call.name + "\n" + d.normal(call.arguments)), d.hash(d.trim(output)))
  }

  /** Two executed calls look alike exactly when they name the same tool with the same
      normalised arguments, and made the same progress exactly when their trimmed
      outputs agree, for tool names without a line feed and a hash without collisions. */
  lemma EntryTells(d: Digest, a: Call, x: string, b: Call, y: string)
    requires forall s, t | d.hash(s) == d.hash(t) :: s == t
    requires '\n' !in a.name && '\n' !in b.name
    ensures
      EntryOf(d, a, x).signature == EntryOf(d, b, y).signature <==>
      a.name == b.name && d.normal(a.arguments) == d.normal(b.arguments)
    ensures EntryOf(d, a, x).digest == EntryOf(d, b, y).digest <==> d.trim(x) == d.trim(y)
  {
    var s, t := a.name + "\n" + d.normal(a.arguments), b.name + "\n" + d.normal(b.arguments);
    if s == t {
      assert s[|a.name|] == '\n' && t[|b.name|] == '\n';
      assert forall i | 0 <= i < |a.name| :: s[i] == a.name[i];
      assert forall i | 0 <= i < |b.name| :: t[i] == b.name[i];
      assert |a.name| == |b.name|;
      assert a.name == s[..|a.name|] && b.name == t[..|b.name|];
      assert d.normal(a.arguments) == s[|a.name| + 1..] && d.normal(b.arguments) == t[|b.name| + 1..];
    }
  }

  // ------------------------------------------------- messages

  /** The message that answers a call; a blank id leaves a message with no parts. */
  function AnswerTo(call: Call, output: string, failed: bool): Message {
    if call.id == "" then Partless else Result(call.id, output, failed)
  }

  predicate Answers(m: Message, call: Call) {
    if call.id == "" then m.Partless? else m.Result? && m.id == call.id
  }

  /** The messages are responses, each directly followed by the answers to its
      calls: all of them, in order, and nothing else. */
  predicate Complete(ms: seq<Message>)
    decreases |ms|
  {
    if ms == [] then true
    else
      && ms[0].Said?
      && var calls := ms[0].response.calls;
      && |ms| > |calls|
      && (forall i | 0 <= i < |calls| :: Answers(ms[i + 1], calls[i]))
      && Complete(ms[|calls| + 1..])
  }

  /** The messages from `k` on are a response and answers to its first calls. */
  predicate OpenAt(ms: seq<Message>, k: nat) {
    && k < |ms| && ms[k].Said? && |ms| - k - 1 <= |ms[k].response.calls|
    && forall i | 0 <= i < |ms| - k - 1 :: Answers(ms[k + 1 + i], ms[k].response.calls[i])
  }

  /** Complete up to a last response whose answers may have been cut short. */
  ghost predicate CutShort(ms: seq<Message>) {
    exists k: nat :: OpenAt(ms, k) && Complete(ms[..k])
  }

  lemma {:induction false} CompleteAppend(a: seq<Message>, b: seq<Message>)
    requires Complete(a) && Complete(b)
    ensures Complete(a + b)
    decreases |a|
  {
    if a == [] {
      assert a + b == b;
    } else {
      var n := |a[0].response.calls| + 1;
      CompleteAppend(a[n..], b);
      assert (a + b)[n..] == a[n..] + b;
      assert forall i | 0 <= i < n :: (a + b)[i] == a[i];
    }
  }

  /** A response with all its calls answered closes the conversation again. */
  lemma Closes(ms: seq<Message>, k: nat)
    requires OpenAt(ms, k) && Complete(ms[..k]) && |ms| - k - 1 == |ms[k].response.calls|
    ensures Complete(ms)
  {
    var b := ms[k..];
    assert b[|b[0].response.calls| + 1..] == [];
    assert Complete(b);
    CompleteAppend(ms[..k], b);
    assert ms[..k] + b == ms;
  }

  /** In complete conversations the ids answered after a response are the
      non-blank ids of its calls, in order, and the next message is a response. */
  lemma {:induction false} CompleteMeans(ms: seq<Message>, p: nat)
    requires Complete(ms) && p < |ms| && ms[p].Said?
    ensures
      var n := |ms[p].response.calls|;
      && p + n < |ms|
      && (forall i | 0 <= i < n :: Answers(ms[p + 1 + i], ms[p].response.calls[i]))
      && (p + n + 1 < |ms| ==> ms[p + n + 1].Said?)
    decreases |ms|
  {
    var n := |ms[0].response.calls|;
    if p > 0 {
      assert p <= n ==> Answers(ms[p - 1 + 1], ms[0].response.calls[p - 1]);
      CompleteMeans(ms[n + 1..], p - n - 1);
    }
  }

  // ------------------------------------------------- what steps amount to

  function Turns(steps: seq<Step>): nat {
    if steps == [] then 0
    else Turns(steps[..|steps| - 1]) + if steps[|steps| - 1].TurnBegan? then 1 else 0
  }

  function Failures(steps: seq<Step>): nat {
    if steps == [] then 0
    else Failures(steps[..|steps| - 1]) + if steps[|steps| - 1].ProviderFailed? then 1 else 0
  }

  /** The models that were tried, in order. */
  function Tried(steps: seq<Step>): seq<string> {
    if steps == [] then []
    else
      Tried(steps[..|steps| - 1]) +
      match steps[|steps| - 1]
      case ModelStarted(_, ref) => [ref]
      case _ => []
  }

  /** Whether the last turn began as the final one. */
  function Final(steps: seq<Step>): bool {
    if steps == [] then false
    else if steps[|steps| - 1].TurnBegan? then steps[|steps| - 1].final
    else Final(steps[..|steps| - 1])
  }

  /** Responses thrown away since a tool last ran. */
  function Idle(steps: seq<Step>): nat {
    if steps == [] then 0
    else
      match steps[|steps| - 1]
      case ToolFinished(_, _, _, _) => 0
      case Discarded(_) => Idle(steps[..|steps| - 1]) + 1
      case _ => Idle(steps[..|steps| - 1])
  }

  /** The executed calls, as the loop detector sees them. */
  function Recorded(d: Digest, steps: seq<Step>): seq<Entry> {
    if steps == [] then []
    else
      Recorded(d, steps[..|steps| - 1]) +
      match steps[|steps| - 1]
      case ToolFinished(_, call, output, _) => [EntryOf(d, call, output)]
      case _ => []
  }

  /** The messages that report the executed calls. */
  function Reports(steps: seq<Step>): seq<Message> {
    if steps == [] then []
    else
      Reports(steps[..|steps| - 1]) +
      match steps[|steps| - 1]
      case ToolFinished(_, call, output, failed) => [AnswerTo(call, output, failed)]
      case _ => []
  }

  function ToolMessages(ms: seq<Message>): seq<Message> {
    if ms == [] then []
    else
      ToolMessages(ms[..|ms| - 1]) +
      match ms[|ms| - 1]
      case Result(_, _, _) => [ms[|ms| - 1]]
      case Partless => [ms[|ms| - 1]]
      case _ => []
  }

  /** A call with an id is reported under that id, with its output and whether it
      failed. */
  lemma {:induction false} ReportTells(steps: seq<Step>, i: nat)
    requires i < |steps| && steps[i].ToolFinished? && steps[i].call.id != ""
    ensures Result(steps[i].call.id, steps[i].output, steps[i].failed) in Reports(steps)
  {
    if i < |steps| - 1 {
      ReportTells(steps[..|steps| - 1], i);
    }
  }

  // ------------------------------------------------- what steps must obey

  /** Each tool start is directly followed by the finish of the same call, and
      each finish directly preceded by its start. */
  predicate Paired(steps: seq<Step>)
    decreases |steps|
  {
    if steps == [] then true
    else
      match steps[|steps| - 1]
      case ToolStarted(_, _) => false
      case ToolFinished(turn, call, _, _) =>
        && |steps| >= 2 && steps[|steps| - 2] == ToolStarted(turn, call)
        && Paired(steps[..|steps| - 2])
      case _ => Paired(steps[..|steps| - 1])
  }

  /** A shared budget: its limit, and the turns used when the run began. */
  datatype Bound = Bound(limit: nat, used: nat)

  /** No turn beyond the limit, the last one marked, and no tool on it. */
  predicate Lawful(bound: Bound, steps: seq<Step>) {
    if steps == [] then true
    else
      var rest := steps[..|steps| - 1];
      var used := bound.used + Turns(rest);
      && Lawful(bound, rest)
      && match steps[|steps| - 1]
         case TurnBegan(_, final) => used < bound.limit && final == (used + 1 == bound.limit)
         case ToolStarted(_, _) => used < bound.limit
         case _ => true
  }

  /** Never more than three empty responses are thrown away in a row. */
  predicate Patient(steps: seq<Step>) {
    steps == [] || (Patient(steps[..|steps| - 1]) && Idle(steps) <= MAX_EMPTY_RETRIES)
  }

  ghost predicate UncriticalBefore(all: seq<Entry>) {
    forall n | 0 <= n < |all| :: !Critical(all[..n])
  }

  ghost predicate Good(d: Digest, bound: Option<Bound>, steps: seq<Step>) {
    && Paired(steps) && Patient(steps) && UncriticalBefore(Recorded(d, steps))
    && (bound.Some? ==> Lawful(bound.value, steps))
  }

  // ------------------------------------------------- one step more

  lemma Unfold(d: Digest, steps: seq<Step>, s: Step)
    ensures
      var more := steps + [s];
      && Turns(more) == Turns(steps) + (if s.TurnBegan? then 1 else 0)
      && Failures(more) == Failures(steps) + (if s.ProviderFailed? then 1 else 0)
      && Tried(more) == (if s.ModelStarted? then Tried(steps) + [s.ref] else Tried(steps))
      && Idle(more) == (if s.ToolFinished? then 0 else if s.Discarded? then Idle(steps) + 1 else Idle(steps))
      && Recorded(d, more) ==
         (if s.ToolFinished? then Recorded(d, steps) + [EntryOf(d, s.call, s.output)] else Recorded(d, steps))
      && Reports(more) ==
         (if s.ToolFinished? then Reports(steps) + [AnswerTo(s.call, s.output, s.failed)] else Reports(steps))
      && Patient(more) == (Patient(steps) && Idle(more) <= MAX_EMPTY_RETRIES)
      && Final(more) == (if s.TurnBegan? then s.final else Final(steps))
  {
    assert (steps + [s])[..|steps|] == steps;
  }

  lemma UnfoldLawful(bound: Bound, steps: seq<Step>, s: Step)
    ensures
      var used := bound.used + Turns(steps);
      Lawful(bound, steps + [s]) ==
      (&& Lawful(bound, steps)
       && (s.TurnBegan? ==> used < bound.limit && s.final == (used + 1 == bound.limit))
       && (s.ToolStarted? ==> used < bound.limit))
  {
    assert (steps + [s])[..|steps|] == steps;
  }

  lemma UnfoldPaired(steps: seq<Step>, s: Step)
    requires !s.ToolStarted? && !s.ToolFinished?
    ensures Paired(steps + [s]) == Paired(steps)
  {
    assert (steps + [s])[..|steps|] == steps;
  }

  lemma PairedMore(steps: seq<Step>, s: Step, f: Step)
    requires Paired(steps) && s.ToolStarted? && f.ToolFinished? && s.call == f.call && s.turn == f.turn
    ensures Paired(steps + [s] + [f])
  {
    var more := steps + [s] + [f];
    assert more[|more| - 1] == f && more[|more| - 2] == s;
    assert more[..|more| - 2] == steps;
  }

  lemma UnfoldMessages(ms: seq<Message>, m: Message)
    ensures ToolMessages(ms + [m]) ==
            if m.Result? || m.Partless? then ToolMessages(ms) + [m] else ToolMessages(ms)
  {
    assert (ms + [m])[..|ms|] == ms;
  }

  /** Any step but a tool's. */
  lemma PlainStep(d: Digest, bound: Option<Bound>, steps: seq<Step>, s: Step)
    requires Good(d, bound, steps) && !s.ToolStarted? && !s.ToolFinished?
    requires s.Discarded? ==> Idle(steps) < MAX_EMPTY_RETRIES
    requires s.TurnBegan? && bound.Some? ==>
      var used := bound.value.used + Turns(steps);
      used < bound.value.limit && s.final == (used + 1 == bound.value.limit)
    ensures
      var more := steps + [s];
      && Good(d, bound, more) && Recorded(d, more) == Recorded(d, steps) && Reports(more) == Reports(steps)
      && Turns(more) == Turns(steps) + (if s.TurnBegan? then 1 else 0)
      && Failures(more) == Failures(steps) + (if s.ProviderFailed? then 1 else 0)
      && Idle(more) == (if s.Discarded? then Idle(steps) + 1 else Idle(steps))
      && Tried(more) == (if s.ModelStarted? then Tried(steps) + [s.ref] else Tried(steps))
      && Final(more) == (if s.TurnBegan? then s.final else Final(steps))
  {
    hide Paired, Patient, Lawful, Turns, Failures, Idle, Tried, Recorded, Reports, UncriticalBefore, Final;
    Unfold(d, steps, s);
    UnfoldPaired(steps, s);
    if bound.Some? {
      UnfoldLawful(bound.value, steps, s);
    }
    PatientIdle(steps);
  }

  lemma PatientIdle(steps: seq<Step>)
    requires Patient(steps)
    ensures Idle(steps) <= MAX_EMPTY_RETRIES
  {
  }

  /** A call that starts and finishes. */
  lemma ToolSteps(
    d: Digest, bound: Option<Bound>, steps: seq<Step>, turn: nat, call: Call, output: string, failed: bool)
    requires Good(d, bound, steps) && !Critical(Recorded(d, steps))
    requires bound.Some? ==> bound.value.used + Turns(steps) < bound.value.limit
    ensures
      var more := steps + [ToolStarted(turn, call)] + [ToolFinished(turn, call, output, failed)];
      && Good(d, bound, more)
      && Recorded(d, more) == Recorded(d, steps) + [EntryOf(d, call, output)]
      && Reports(more) == Reports(steps) + [AnswerTo(call, output, failed)]
      && Turns(more) == Turns(steps) && Failures(more) == Failures(steps) && Idle(more) == 0
  {
    hide Paired, Patient, Lawful, Turns, Failures, Idle, Tried, Recorded, Reports, Critical, UncriticalBefore,
         EntryOf, AnswerTo;
    var s, f := ToolStarted(turn, call), ToolFinished(turn, call, output, failed);
    PairedMore(steps, s, f);
    Unfold(d, steps, s);
    Unfold(d, steps + [s], f);
    if bound.Some? {
      UnfoldLawful(bound.value, steps, s);
      UnfoldLawful(bound.value, steps + [s], f);
    }
    PatientIdle(steps);
    OneMore(Recorded(d, steps), EntryOf(d, call, output));
  }

  lemma OneMore(all: seq<Entry>, e: Entry)
    requires UncriticalBefore(all) && !Critical(all)
    ensures UncriticalBefore(all + [e])
  {
    hide Critical;
    forall n | 0 <= n < |all| + 1 ensures !Critical((all + [e])[..n]) {
      assert (all + [e])[..n] == all[..n];
      assert all[..|all|] == all;
    }
  }

  // ------------------------------------------------- whole traces

  lemma {:induction false} TurnsAppend(a: seq<Step>, b: seq<Step>)
    ensures Turns(a + b) == Turns(a) + Turns(b)
  {
    if b == [] {
      assert a + b == a;
    } else {
      assert (a + b)[..|a + b| - 1] == a + b[..|b| - 1];
      TurnsAppend(a, b[..|b| - 1]);
    }
  }

  lemma {:induction false} LawfulAppend(bound: Bound, a: seq<Step>, b: seq<Step>)
    requires Lawful(bound, a) && Lawful(bound.(used := bound.used + Turns(a)), b)
    ensures Lawful(bound, a + b)
  {
    if b == [] {
      assert a + b == a;
    } else {
      var rest := b[..|b| - 1];
      assert (a + b)[..|a + b| - 1] == a + rest;
      LawfulAppend(bound, a, rest);
      TurnsAppend(a, rest);
    }
  }

  /** Within a lawful trace the budget is never overdrawn, a turn is marked last
      exactly when it uses the budget up, and no tool starts on that turn. */
  lemma {:induction false} LawfulMeans(bound: Bound, steps: seq<Step>, i: nat)
    requires Lawful(bound, steps) && bound.used <= bound.limit
    ensures bound.used + Turns(steps) <= bound.limit
    ensures i < |steps| && steps[i].ToolStarted? ==> bound.used + Turns(steps[..i]) < bound.limit
    ensures i < |steps| && steps[i].TurnBegan? ==>
      (steps[i].final <==> bound.used + Turns(steps[..i + 1]) == bound.limit)
  {
    if steps != [] {
      var rest := steps[..|steps| - 1];
      LawfulMeans(bound, rest, i);
      if i < |rest| {
        assert rest[..i] == steps[..i] && rest[..i + 1] == steps[..i + 1];
      } else if i == |rest| {
        assert steps[..i + 1] == steps;
      }
    }
  }

  /** Runs that share one budget, each starting where the one before left it. */
  function Together(runs: seq<seq<Step>>): seq<Step> {
    if runs == [] then [] else Together(runs[..|runs| - 1]) + runs[|runs| - 1]
  }

  ghost predicate Shared(limit: nat, runs: seq<seq<Step>>) {
    forall i | 0 <= i < |runs| :: Lawful(Bound(limit, Turns(Together(runs[..i]))), runs[i])
  }

  lemma TogetherSnoc(runs: seq<seq<Step>>, run: seq<Step>)
    ensures Together(runs + [run]) == Together(runs) + run
  {
    assert (runs + [run])[..|runs|] == runs;
  }

  /** One more run that starts where the others left the budget. */
  lemma SharedSnoc(limit: nat, runs: seq<seq<Step>>, run: seq<Step>)
    requires Shared(limit, runs) && Lawful(Bound(limit, Turns(Together(runs))), run)
    ensures Shared(limit, runs + [run])
    ensures Turns(Together(runs + [run])) == Turns(Together(runs)) + Turns(run)
  {
    hide Lawful, Turns, Together;
    var more := runs + [run];
    forall i | 0 <= i < |more| ensures Lawful(Bound(limit, Turns(Together(more[..i]))), more[i]) {
      if i < |runs| {
        assert more[..i] == runs[..i];
      } else {
        assert more[..i] == runs;
      }
    }
    TogetherSnoc(runs, run);
    TurnsAppend(Together(runs), run);
  }

  lemma {:induction false} SharedIsLawful(limit: nat, runs: seq<seq<Step>>)
    requires Shared(limit, runs)
    ensures Lawful(Bound(limit, 0), Together(runs))
  {
    if runs != [] {
      hide Lawful, Turns;
      var n := |runs| - 1;
      assert forall k | 0 <= k < n :: runs[..n][..k] == runs[..k] && runs[..n][k] == runs[k];
      SharedIsLawful(limit, runs[..n]);
      LawfulAppend(Bound(limit, 0), Together(runs[..n]), runs[n]);
    }
  }

  /** Across all runs that share a budget at most `limit` turns start, and no
      tool starts once the last of them has begun. */
  lemma SharedBudget(limit: nat, runs: seq<seq<Step>>, i: nat)
    requires Shared(limit, runs)
    ensures Lawful(Bound(limit, 0), Together(runs)) && Turns(Together(runs)) <= limit
    ensures
      var steps := Together(runs);
      i < |steps| && steps[i].ToolStarted? ==> Turns(steps[..i]) < limit
  {
    hide Lawful, Turns, Together, Shared;
    SharedIsLawful(limit, runs);
    LawfulMeans(Bound(limit, 0), Together(runs), i);
  }

  /** Pairing, position by position. */
  lemma {:induction false} PairedMeans(steps: seq<Step>, i: nat)
    requires Paired(steps) && i < |steps|
    ensures steps[i].ToolStarted? ==>
      && i + 1 < |steps| && steps[i + 1].ToolFinished?
      && steps[i + 1].call == steps[i].call && steps[i + 1].turn == steps[i].turn
    ensures steps[i].ToolFinished? ==> i > 0 && steps[i - 1] == ToolStarted(steps[i].turn, steps[i].call)
    decreases |steps|
  {
    var n := if steps[|steps| - 1].ToolFinished? then |steps| - 2 else |steps| - 1;
    if i < n {
      PairedMeans(steps[..n], i);
    }
  }
}
