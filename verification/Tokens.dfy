/**
 The token estimate of a request, and the note about the context window that is
 sent with the request it counts.
 */
module Tokens {
  import opened Wrappers
  import opened Text

  /** Opaque replay state of a reasoning part, as JSON where it encodes. */
  datatype Replay = NoReplay | Encoded(json: string) | Unencodable

  datatype Part =
    | Prose(text: string)
    | Reasoning(text: string, replay: Replay)
    | ToolCall(name: string, id: string, arguments: string)
    | ToolResult(id: string, content: string)
    | Media(text: string)

  datatype Message = Message(temporal: bool, parts: seq<Part>)

  datatype Tools = NoTools | Listed(json: string) | BadTools

  /** A per-string count: a tokenizer's, or bytes where it fails. */
  type Counter = string -> nat

  // ------------------------------------------------- the estimator

  function PartTokens(p: Part, count: Counter): Option<nat> {
    match p
    case Prose(text) => Some(count(text))
    case ToolCall(name, id, arguments) => Some(count(name + "\n" + id + "\n" + arguments))
    case ToolResult(id, content) => Some(count(id + "\n" + content))
    case Media(text) => Some(8192 + count(text))
    case Reasoning(text, replay) =>
      if text != "" || replay.NoReplay? then Some(count(text))
      else if replay.Encoded? then Some(count(replay.json)) else None
  }

  function Plus(a: Option<nat>, b: Option<nat>): Option<nat> {
    if a.Some? && b.Some? then Some(a.value + b.value) else None
  }

  function PartsTokens(parts: seq<Part>, count: Counter): Option<nat> {
    if parts == [] then Some(0)
    else Plus(PartsTokens(parts[..|parts| - 1], count), PartTokens(parts[|parts| - 1], count))
  }

  function MessageTokens(m: Message, count: Counter): Option<nat> {
    Plus(Some(if m.temporal then 80 else 16), PartsTokens(m.parts, count))
  }

  function ListTokens(messages: seq<Message>, count: Counter): Option<nat> {
    if messages == [] then Some(0)
    else
      Plus(ListTokens(messages[..|messages| - 1], count),
           MessageTokens(messages[|messages| - 1], count))
  }

  function ToolTokens(tools: Tools, count: Counter): Option<nat> {
    match tools
    case NoTools => Some(0)
    case Listed(json) => Some(count(json))
    case BadTools => None
  }

  /** A quarter on top, rounded up. */
  function Margin(tokens: nat): nat { tokens + (tokens + 3) / 4 }

  function Request(messages: seq<Message>, tools: Tools, count: Counter): Option<nat> {
    Plus(Plus(Some(128), ListTokens(messages, count)), ToolTokens(tools, count))
  }

  function Estimate(messages: seq<Message>, tools: Tools, count: Counter): Option<nat> {
    var raw := Request(messages, tools, count);
    if raw.Some? then Some(Margin(raw.value)) else None
  }

  // ------------------------------------------------- what is counted

  /** The text that is counted for a part; a reasoning part without text is counted
      by its replay state, and fails if that has no JSON. */
  function TextOf(p: Part): Option<string> {
    match p
    case Prose(text) => Some(text)
    case Media(text) => Some(text)
    case ToolCall(name, id, arguments) => Some(name + "\n" + id + "\n" + arguments)
    case ToolResult(id, content) => Some(id + "\n" + content)
    case Reasoning(text, replay) =>
      if text != "" then Some(text)
      else
        match replay
        case NoReplay => Some("")
        case Encoded(json) => Some(json)
        case Unencodable => None
  }

  function AllParts(messages: seq<Message>): seq<Part> {
    if messages == [] then [] else AllParts(messages[..|messages| - 1]) + messages[|messages| - 1].parts
  }

  function Counted(parts: seq<Part>, count: Counter): nat {
    if parts == [] then 0
    else
      var text := TextOf(parts[|parts| - 1]);
      Counted(parts[..|parts| - 1], count) + if text.Some? then count(text.value) else 0
  }

  function MediaIn(parts: seq<Part>): nat {
    if parts == [] then 0 else MediaIn(parts[..|parts| - 1]) + if parts[|parts| - 1].Media? then 1 else 0
  }

  function TemporalIn(messages: seq<Message>): nat {
    if messages == [] then 0
    else TemporalIn(messages[..|messages| - 1]) + if messages[|messages| - 1].temporal then 1 else 0
  }

  lemma {:induction false} PartsAre(parts: seq<Part>, count: Counter)
    ensures PartsTokens(parts, count) ==
      if forall p | p in parts :: TextOf(p).Some? then Some(8192 * MediaIn(parts) + Counted(parts, count)) else None
  {
    if parts != [] {
      var rest, last := parts[..|parts| - 1], parts[|parts| - 1];
      assert parts == rest + [last];
      PartsAre(rest, count);
    }
  }

  lemma {:induction false} CountedAppend(a: seq<Part>, b: seq<Part>, count: Counter)
    ensures Counted(a + b, count) == Counted(a, count) + Counted(b, count)
    ensures MediaIn(a + b) == MediaIn(a) + MediaIn(b)
  {
    if b == [] {
      assert a + b == a;
    } else {
      assert (a + b)[..|a + b| - 1] == a + b[..|b| - 1];
      CountedAppend(a, b[..|b| - 1], count);
    }
  }

  lemma {:induction false} ListIs(messages: seq<Message>, count: Counter)
    ensures
      var parts := AllParts(messages);
      ListTokens(messages, count) ==
      if forall p | p in parts :: TextOf(p).Some?
      then Some(16 * |messages| + 64 * TemporalIn(messages) + 8192 * MediaIn(parts) + Counted(parts, count)) else None
  {
    hide TextOf, PartsTokens, Counted, MediaIn, ListTokens, AllParts, TemporalIn;
    NothingListed(count);
    if messages != [] {
      var rest, last := messages[..|messages| - 1], messages[|messages| - 1];
      ListIs(rest, count);
      ListStep(messages, count);
    }
  }

  lemma NothingListed(count: Counter)
    ensures ListTokens([], count) == Some(0) && AllParts([]) == []
    ensures Counted([], count) == MediaIn([]) == TemporalIn([]) == 0
  {
  }

  lemma ListStep(messages: seq<Message>, count: Counter)
    requires messages != []
    ensures
      var rest, last := messages[..|messages| - 1], messages[|messages| - 1];
      var parts, more := AllParts(rest), if last.temporal then 80 else 16;
      && ListTokens(messages, count) ==
         (if forall p | p in last.parts :: TextOf(p).Some?
          then Plus(ListTokens(rest, count), Some(more + 8192 * MediaIn(last.parts) + Counted(last.parts, count)))
          else None)
      && AllParts(messages) == parts + last.parts
      && Counted(AllParts(messages), count) == Counted(parts, count) + Counted(last.parts, count)
      && MediaIn(AllParts(messages)) == MediaIn(parts) + MediaIn(last.parts)
      && TemporalIn(messages) == TemporalIn(rest) + (if last.temporal then 1 else 0)
  {
    hide PartsTokens, TextOf, MediaIn, Counted;
    var rest, last := messages[..|messages| - 1], messages[|messages| - 1];
    PartsAre(last.parts, count);
    CountedAppend(AllParts(rest), last.parts, count);
  }

  /** The estimate: 128 for the request, 16 for a message and 64 more for a temporal
      one, 8192 for a media part, and the count of every text, with a quarter on top,
      rounded up. It fails exactly when some text cannot be had. */
  lemma EstimateIs(messages: seq<Message>, tools: Tools, count: Counter)
    ensures
      var parts := AllParts(messages);
      var estimate := Estimate(messages, tools, count);
      && (estimate.None? <==> tools.BadTools? || exists p :: p in parts && TextOf(p).None?)
      && (estimate.Some? ==>
            var raw := 128 + 16 * |messages| + 64 * TemporalIn(messages) + 8192 * MediaIn(parts) +
              Counted(parts, count) + if tools.Listed? then count(tools.json) else 0;
            4 * (estimate.value - 1) < 5 * raw <= 4 * estimate.value)
  {
    ListIs(messages, count);
    hide ListTokens, TextOf, AllParts, Counted, MediaIn, TemporalIn;
  }

  /** No partial sum fails without failing the whole. */
  lemma {:induction false} PartsPrefix(parts: seq<Part>, count: Counter, i: nat)
    requires i <= |parts| && PartsTokens(parts[..i], count).None?
    ensures PartsTokens(parts, count).None?
  {
    if i == |parts| {
      assert parts[..i] == parts;
    } else {
      assert parts[..|parts| - 1][..i] == parts[..i];
      PartsPrefix(parts[..|parts| - 1], count, i);
    }
  }

  lemma {:induction false} ListPrefix(messages: seq<Message>, count: Counter, i: nat)
    requires i <= |messages| && ListTokens(messages[..i], count).None?
    ensures ListTokens(messages, count).None?
  {
    if i == |messages| {
      assert messages[..i] == messages;
    } else {
      assert messages[..|messages| - 1][..i] == messages[..i];
      ListPrefix(messages[..|messages| - 1], count, i);
    }
  }

  method EstimateParts(parts: seq<Part>, before: nat, count: Counter) returns (tokens: Option<nat>)
    ensures tokens == Plus(Some(before), PartsTokens(parts, count))
  {
    var sum := before;
    for i := 0 to |parts|
      invariant Some(sum) == Plus(Some(before), PartsTokens(parts[..i], count))
    {
      assert parts[..i + 1][..i] == parts[..i];
      var part := parts[i];
      var body := "";
      match part {
        case ToolCall(name, id, arguments) =>
          body := name + "\n" + id + "\n" + arguments;
        case ToolResult(id, content) =>
          body := id + "\n" + content;
        case Media(text) =>
          body := text;
          sum := sum + 8192;
        case Prose(text) =>
          body := text;
        case Reasoning(text, replay) =>
          body := text;
          if text == "" && !replay.NoReplay? {
            if replay.Unencodable? {
              PartsPrefix(parts, count, i + 1);
              return None;
            }
            body := replay.json;
          }
      }
      sum := sum + count(body);
    }
    assert parts[..|parts|] == parts;
    return Some(sum);
  }

  method RequestEstimatedTokens(messages: seq<Message>, tools: Tools, count: Counter) returns (tokens: Option<nat>)
    ensures tokens == Estimate(messages, tools, count)
  {
    hide PartsTokens, ListTokens;
    NothingListed(count);
    var sum := 128;
    for i := 0 to |messages|
      invariant Some(sum) == Plus(Some(128), ListTokens(messages[..i], count))
    {
      ListSnoc(messages, i, count);
      sum := sum + 16;
      if messages[i].temporal {
        sum := sum + 64;
      }
      var more := EstimateParts(messages[i].parts, sum, count);
      if more.None? {
        ListPrefix(messages, count, i + 1);
        return None;
      }
      sum := more.value;
    }
    assert messages[..|messages|] == messages;
    match tools {
      case NoTools =>
      case Listed(json) => sum := sum + count(json);
      case BadTools => return None;
    }
    return Some(sum + (sum + 3) / 4);
  }

  lemma ListSnoc(messages: seq<Message>, i: nat, count: Counter)
    requires i < |messages|
    ensures ListTokens(messages[..i + 1], count) ==
            Plus(ListTokens(messages[..i], count), MessageTokens(messages[i], count))
  {
    assert messages[..i + 1][..i] == messages[..i];
    hide MessageTokens;
  }

  lemma {:induction false} ListTokensAppend(a: seq<Message>, b: seq<Message>, count: Counter)
    ensures ListTokens(a + b, count) == Plus(ListTokens(a, count), ListTokens(b, count))
  {
    if b == [] {
      assert a + b == a;
    } else {
      assert (a + b)[..|a + b| - 1] == a + b[..|b| - 1];
      ListTokensAppend(a, b[..|b| - 1], count);
      hide MessageTokens;
    }
  }

  // ------------------------------------------------- the note

  datatype Build = Build(commit: string, modified: string, source: string)

  datatype Model = Model(ref: string, maxContext: int, maxOutput: int)

  function Min(a: int, b: int): int { if a < b then a else b }
  function Max(a: int, b: int): int { if a > b then a else b }

  function EscapeChar(c: char): string {
    if c == '<' then "&lt;"
    else if c == '>' then "&gt;"
    else if c == '&' then "&amp;"
    else if c == '\'' then "&#39;"
    else if c == '"' then "&#34;"
    else [c]
  }

  function Escape(s: string): string {
    if s == "" then "" else EscapeChar(s[0]) + Escape(s[1..])
  }

  /** Reading escaped text: named and numbered character references. */
  function Unescape(s: string): string
    decreases |s|
  {
    if s == "" then ""
    else if "&lt;" <= s then "<" + Unescape(s[4..])
    else if "&gt;" <= s then ">" + Unescape(s[4..])
    else if "&amp;" <= s then "&" + Unescape(s[5..])
    else if |s| >= 5 && s[..2] == "&#" && IsDigit(s[2]) && IsDigit(s[3]) && s[4] == ';' then
      [(10 * (s[2] as int - '0' as int) + (s[3] as int - '0' as int)) as char] + Unescape(s[5..])
    else [s[0]] + Unescape(s[1..])
  }

  /** Escaped text has no quote and no bracket, and reads back as the text. */
  lemma {:induction false} EscapeIs(s: string)
    ensures Unescape(Escape(s)) == s
    ensures forall c | c in Escape(s) :: c != '"' && c != '<' && c != '>' && c != '\''
  {
    hide Unescape;
    NothingEscaped();
    if s != "" {
      EscapeIs(s[1..]);
      OneUnescaped(s[0], Escape(s[1..]));
    }
  }

  lemma NothingEscaped()
    ensures Unescape("") == ""
  {
  }

  lemma OneUnescaped(c: char, rest: string)
    ensures Unescape(EscapeChar(c) + rest) == [c] + Unescape(rest)
  {
    var one := EscapeChar(c);
    var s := one + rest;
    assert s[|one|..] == rest;
    assert forall i | 0 <= i < |one| :: s[i] == one[i];
    if c == '\'' || c == '"' {
      assert s[..2] == "&#" && s[4] == ';';
    } else if c == '<' || c == '>' || c == '&' {
      assert one <= s && s[1] == one[1];
      assert c == '>' ==> !("&lt;" <= s);
      assert c == '&' ==> !("&lt;" <= s) && !("&gt;" <= s);
    } else {
      assert !("&lt;" <= s) && !("&gt;" <= s) && !("&amp;" <= s);
    }
  }

  /** The output reserve is the least of 8192, a quarter of the context window and,
      if the model has one, its output limit. */
  lemma ReserveIs(model: Model)
    ensures
      var reserve := OutputReserve(model);
      && reserve <= 8192 && 4 * reserve <= model.maxContext
      && (model.maxOutput > 0 ==> reserve <= model.maxOutput)
      && (reserve == 8192 || model.maxContext < 4 * (reserve + 1) || (model.maxOutput > 0 && reserve == model.maxOutput))
  {
  }

  function Attribute(key: string, value: string): string {
    var v := Trim(value);
    if v == "" then "" else " " + key + "=\"" + Escape(v) + "\""
  }

  function OutputReserve(model: Model): int {
    var reserve := Min(8192, model.maxContext / 4);
    if model.maxOutput > 0 then Min(reserve, model.maxOutput) else reserve
  }

  function OrUnknown(model: Model, n: int): string {
    if model.maxContext > 0 then Itoa(n) else "unknown"
  }

  const ESTIMATOR := "o200k_base_or_bytes_margin25"

  /** The parts of the note, in key order, that do not depend on the estimate. */
  function Before(build: Build): string { "<context_window" + Attribute("build_provenance", build.source) }

  function Between(build: Build, model: Model): string {
    Attribute("estimator", ESTIMATOR) +
    Attribute("git_commit", build.commit) +
    Attribute("model_context_tokens", OrUnknown(model, model.maxContext)) +
    Attribute("model_ref", if model.ref == "" then "unknown" else model.ref) +
    Attribute("output_reserve_tokens", OrUnknown(model, OutputReserve(model)))
  }

  function After(build: Build, model: Model, limit: int, guidance: string): string {
    Attribute("safety_reserve_tokens", OrUnknown(model, Max(1, model.maxContext / 20))) +
    Attribute("source_modified", build.modified) +
    Attribute("working_budget_tokens", Itoa(limit)) +
    ">\n" + guidance + "\n</context_window>"
  }

  /** Everything that goes into the note but the estimate. */
  datatype Setting = Setting(build: Build, model: Model, limit: int, guidance: string)

  function RenderContextWindow(s: Setting, estimate: nat): string {
    Before(s.build) + Attribute("estimated_input_tokens", Decimal(estimate)) +
    Between(s.build, s.model) + Attribute("remaining_budget_tokens", Decimal(Max(0, s.limit - estimate))) +
    After(s.build, s.model, s.limit, s.guidance)
  }

  /** The attributes of the note, by name. */
  function Attributes(s: Setting, estimate: nat): seq<(string, string)> {
    var known := s.model.maxContext > 0;
    [("build_provenance", s.build.source),
     ("estimated_input_tokens", Decimal(estimate)),
     ("estimator", "o200k_base_or_bytes_margin25"),
     ("git_commit", s.build.commit),
     ("model_context_tokens", if known then Itoa(s.model.maxContext) else "unknown"),
     ("model_ref", if s.model.ref == "" then "unknown" else s.model.ref),
     ("output_reserve_tokens", if known then Itoa(OutputReserve(s.model)) else "unknown"),
     ("remaining_budget_tokens", if s.limit > estimate then Decimal(s.limit - estimate) else "0"),
     ("safety_reserve_tokens",
      if !known then "unknown" else if s.model.maxContext < 20 then "1" else Itoa(s.model.maxContext / 20)),
     ("source_modified", s.build.modified),
     ("working_budget_tokens", Itoa(s.limit))]
  }

  /** The opening tag up to its last attribute. */
  function Opening(attributes: seq<(string, string)>): string {
    if attributes == [] then "<context_window"
    else
      var last := attributes[|attributes| - 1];
      Opening(attributes[..|attributes| - 1]) + Attribute(last.0, last.1)
  }

  lemma OpeningSnoc(attributes: seq<(string, string)>, last: (string, string))
    ensures Opening(attributes + [last]) == Opening(attributes) + Attribute(last.0, last.1)
  {
    assert (attributes + [last])[..|attributes|] == attributes;
    hide Attribute;
  }

  /** The note is the element of these attributes around the guidance. */
  lemma NoteIs(s: Setting, estimate: nat)
    ensures RenderContextWindow(s, estimate) ==
      Opening(Attributes(s, estimate)) + ">\n" + s.guidance + "\n</context_window>"
  {
    hide Decimal, Attribute, Itoa, OutputReserve, Opening;
    OneDigits();
    var all := Attributes(s, estimate);
    OpeningIs(all);
    var x := Opening(all[..2]);
    Five(x, all[2], all[3], all[4], all[5], all[6]);
    var y := Opening(all[..7]) + Attribute(all[7].0, all[7].1);
    var end := "\n</context_window>";
    Three(y, all[8], all[9], all[10], ">\n", s.guidance, end);
  }

  lemma OpeningIs(all: seq<(string, string)>)
    requires |all| == 11
    ensures Opening(all[..2]) == "<context_window" + Attribute(all[0].0, all[0].1) + Attribute(all[1].0, all[1].1)
    ensures Opening(all[..7]) ==
      Opening(all[..2]) + Attribute(all[2].0, all[2].1) + Attribute(all[3].0, all[3].1) +
      Attribute(all[4].0, all[4].1) + Attribute(all[5].0, all[5].1) + Attribute(all[6].0, all[6].1)
    ensures Opening(all) ==
      Opening(all[..7]) + Attribute(all[7].0, all[7].1) + Attribute(all[8].0, all[8].1) +
      Attribute(all[9].0, all[9].1) + Attribute(all[10].0, all[10].1)
  {
    hide Attribute, Opening;
    NoneOpen();
    assert all[..0] == [] && all[..11] == all;
    forall k: nat | k < 11 ensures Opening(all[..k + 1]) == Opening(all[..k]) + Attribute(all[k].0, all[k].1) {
      assert all[..k + 1] == all[..k] + [all[k]];
      OpeningSnoc(all[..k], all[k]);
    }
    assert all[..0 + 1] == all[..1] && all[..1 + 1] == all[..2] && all[..2 + 1] == all[..3] && all[..3 + 1] == all[..4];
    assert all[..4 + 1] == all[..5] && all[..5 + 1] == all[..6] && all[..6 + 1] == all[..7] && all[..7 + 1] == all[..8];
    assert all[..8 + 1] == all[..9] && all[..9 + 1] == all[..10] && all[..10 + 1] == all[..11];
  }

  lemma NoneOpen()
    ensures Opening([]) == "<context_window"
  {
  }

  lemma Assoc(x: string, y: string, z: string)
    ensures x + (y + z) == x + y + z
  {
  }

  lemma Five(
    x: string, a: (string, string), b: (string, string), c: (string, string), d: (string, string), e: (string, string))
    ensures
      var p, q, r, s, t := Attribute(a.0, a.1), Attribute(b.0, b.1), Attribute(c.0, c.1), Attribute(d.0, d.1),
        Attribute(e.0, e.1);
      x + (p + q + r + s + t) == x + p + q + r + s + t
  {
    hide Attribute;
    var p, q, r, s, t := Attribute(a.0, a.1), Attribute(b.0, b.1), Attribute(c.0, c.1), Attribute(d.0, d.1),
      Attribute(e.0, e.1);
    Assoc(x, p + q + r + s, t);
    Assoc(x, p + q + r, s);
    Assoc(x, p + q, r);
    Assoc(x, p, q);
  }

  lemma Three(
    y: string, a: (string, string), b: (string, string), c: (string, string), d: string, e: string, f: string)
    ensures
      var p, q, r := Attribute(a.0, a.1), Attribute(b.0, b.1), Attribute(c.0, c.1);
      y + (p + q + r + d + e + f) == y + p + q + r + d + e + f
  {
    hide Attribute;
    var p, q, r := Attribute(a.0, a.1), Attribute(b.0, b.1), Attribute(c.0, c.1);
    Assoc(y, p + q + r + d + e, f);
    Assoc(y, p + q + r + d, e);
    Assoc(y, p + q + r, d);
    Assoc(y, p + q, r);
    Assoc(y, p, q);
  }

  lemma OneDigits()
    ensures Decimal(0) == "0" && Itoa(1) == "1"
  {
  }

  function Note(s: Setting, estimate: nat): Message {
    Message(false, [Prose(RenderContextWindow(s, estimate))])
  }

  datatype Window = Window(messages: seq<Message>, estimate: nat)

  function WithContextWindow(
    messages: seq<Message>, tools: Tools, s: Setting, tail: seq<Message>, count: Counter): Option<Window>
  {
    var base := Estimate(messages + tail, tools, count);
    var allowance := Estimate([Note(s, MAX_INT)], NoTools, count);
    if base.None? || allowance.None? then None
    else
      var estimate := base.value + allowance.value + 64;
      Some(Window(messages + [Note(s, estimate)] + tail, estimate))
  }

  // ------------------------------------------------- the allowance covers the note

  lemma NoteTokens(s: Setting, estimate: nat, count: Counter)
    ensures ListTokens([Note(s, estimate)], count) == Some(16 + count(RenderContextWindow(s, estimate)))
  {
    hide RenderContextWindow;
    var m := Note(s, estimate);
    assert [m][..0] == [] && m.parts[..0] == [];
    assert PartsTokens(m.parts, count) == Some(count(RenderContextWindow(s, estimate)));
    assert MessageTokens(m, count) == Some(16 + count(RenderContextWindow(s, estimate)));
  }

  /** Counts on the note, and on the note with the largest estimate. */
  function Final(s: Setting, estimate: nat, count: Counter): nat { count(RenderContextWindow(s, estimate)) }
  function Largest(s: Setting, count: Counter): nat { count(RenderContextWindow(s, MAX_INT)) }

  lemma NoteAdds(
    messages: seq<Message>, tools: Tools, s: Setting, tail: seq<Message>, count: Counter, estimate: nat)
    ensures
      var base, whole := Request(messages + tail, tools, count), Request(messages + [Note(s, estimate)] + tail, tools, count);
      if base.Some? then whole == Some(base.value + 16 + Final(s, estimate, count)) else whole.None?
  {
    hide ListTokens, RenderContextWindow;
    ListTokensAppend(messages, tail, count);
    ListTokensAppend(messages + [Note(s, estimate)], tail, count);
    ListTokensAppend(messages, [Note(s, estimate)], count);
    NoteTokens(s, estimate, count);
  }

  /** The estimate covers the request that carries it, when a request of `raw`
      tokens without the note has a note of `final` tokens, `largest` at most. */
  predicate Covers(raw: nat, largest: nat, final: nat) {
    Margin(raw + 16 + final) <= Margin(raw) + Margin(144 + largest) + 64
  }

  /** What is returned: failure exactly when the request cannot be counted, and
      otherwise an estimate that covers the returned list exactly when `Covers`. */
  lemma WindowIs(messages: seq<Message>, tools: Tools, s: Setting, tail: seq<Message>, count: Counter)
    ensures
      var window := WithContextWindow(messages, tools, s, tail, count);
      var base := Request(messages + tail, tools, count);
      if base.None? then window.None?
      else
        && window.Some?
        && window.value.estimate == Margin(base.value) + Margin(144 + Largest(s, count)) + 64
        && var whole := Estimate(window.value.messages, tools, count);
        && whole.Some?
        && (whole.value <= window.value.estimate <==>
            Covers(base.value, Largest(s, count), Final(s, window.value.estimate, count)))
  {
    hide ListTokens, RenderContextWindow;
    NoteTokens(s, MAX_INT, count);
    var base := Request(messages + tail, tools, count);
    if base.Some? {
      var estimate := Margin(base.value) + Margin(144 + Largest(s, count)) + 64;
      NoteAdds(messages, tools, s, tail, count, estimate);
    }
  }

  const SLACK := 179

  /** The slack the rounding leaves: a note may outgrow the one it was reserved
      for by 179 tokens, never by 180, whatever else is in the request. */
  lemma SlackIsExact(excess: int)
    ensures (forall raw: nat, largest: nat, final: nat ::
               final == largest + excess ==> Covers(raw, largest, final)) <==> excess <= SLACK
  {
    if excess <= SLACK {
      forall raw: nat, largest: nat, final: nat | final == largest + excess
        ensures Covers(raw, largest, final)
      {
        CoversWithin(raw, largest, final);
      }
    } else {
      assert !Covers(0, 0, excess);
    }
  }

  lemma CoversWithin(raw: nat, largest: nat, final: nat)
    requires final <= largest + SLACK
    ensures Covers(raw, largest, final)
  {
  }

  /** The estimate is never below the estimator's count of the returned list, for
      every counter that gives the final note at most 179 more than the largest. */
  lemma EstimateCoversRequest(messages: seq<Message>, tools: Tools, s: Setting, tail: seq<Message>, count: Counter)
    ensures
      var window := WithContextWindow(messages, tools, s, tail, count);
      window.Some? && Final(s, window.value.estimate, count) <= Largest(s, count) + SLACK ==>
        var whole := Estimate(window.value.messages, tools, count);
        whole.Some? && whole.value <= window.value.estimate
  {
    hide ListTokens, RenderContextWindow, Request, Estimate, WithContextWindow;
    WindowIs(messages, tools, s, tail, count);
    var base := Request(messages + tail, tools, count);
    var estimate := if base.Some? then Margin(base.value) + Margin(144 + Largest(s, count)) + 64 else 0;
    if base.Some? && Final(s, estimate, count) <= Largest(s, count) + SLACK {
      CoversWithin(base.value, Largest(s, count), Final(s, estimate, count));
    }
  }

  // ------------------------------------------------- counting bytes

  function CharBytes(c: char): nat {
    if c < '\U{80}' then 1 else if c < '\U{800}' then 2 else if c < '\U{10000}' then 3 else 4
  }

  function Utf8(s: string): nat {
    if s == "" then 0 else CharBytes(s[0]) + Utf8(s[1..])
  }

  lemma {:induction false} Utf8Append(s: string, t: string)
    ensures Utf8(s + t) == Utf8(s) + Utf8(t)
  {
    if s == "" {
      assert s + t == t;
    } else {
      assert (s + t)[1..] == s[1..] + t;
      Utf8Append(s[1..], t);
    }
  }

  lemma {:induction false} DigitsAsTheyAre(s: string)
    requires forall i | 0 <= i < |s| :: IsDigit(s[i])
    ensures Trim(s) == s && Escape(s) == s && Utf8(s) == |s|
  {
    if s != "" {
      DigitsAsTheyAre(s[1..]);
    }
  }

  lemma NumberBytes(key: string, n: nat)
    ensures Utf8(Attribute(key, Decimal(n))) == Utf8(" " + key + "=\"") + |Decimal(n)| + 1
  {
    DigitsAsTheyAre(Decimal(n));
    Utf8Append(" " + key + "=\"", Decimal(n));
    Utf8Append(" " + key + "=\"" + Decimal(n), "\"");
    assert "\""[1..] == "";
    assert Attribute(key, Decimal(n)) == " " + key + "=\"" + Decimal(n) + "\"";
  }

  lemma NoteBytes(s: Setting, estimate: nat)
    ensures Utf8(RenderContextWindow(s, estimate)) ==
      Utf8(Before(s.build)) + Utf8(Attribute("estimated_input_tokens", Decimal(estimate))) +
      Utf8(Between(s.build, s.model)) +
      Utf8(Attribute("remaining_budget_tokens", Decimal(Max(0, s.limit - estimate)))) +
      Utf8(After(s.build, s.model, s.limit, s.guidance))
  {
    hide Before, Between, After, Attribute, Decimal, Utf8;
    var a, b, c := Before(s.build), Attribute("estimated_input_tokens", Decimal(estimate)), Between(s.build, s.model);
    var d := Attribute("remaining_budget_tokens", Decimal(Max(0, s.limit - estimate)));
    var e := After(s.build, s.model, s.limit, s.guidance);
    Utf8Append(a, b);
    Utf8Append(a + b, c);
    Utf8Append(a + b + c, d);
    Utf8Append(a + b + c + d, e);
  }

  /** Byte counts differ only in the digits of two numbers. */
  lemma DigitsDiffer(s: Setting, estimate: nat)
    requires s.limit <= MAX_INT
    ensures Utf8(RenderContextWindow(s, estimate)) - Utf8(RenderContextWindow(s, MAX_INT)) ==
      |Decimal(estimate)| - |Decimal(MAX_INT)| + |Decimal(Max(0, s.limit - estimate))| - 1
  {
    hide RenderContextWindow, Before, Between, After, Attribute, Utf8;
    NoteBytes(s, estimate);
    NoteBytes(s, MAX_INT);
    NumberBytes("estimated_input_tokens", estimate);
    NumberBytes("estimated_input_tokens", MAX_INT);
    NumberBytes("remaining_budget_tokens", Max(0, s.limit - estimate));
    NumberBytes("remaining_budget_tokens", 0);
    assert Decimal(0) == [Digit(0)];
    assert Max(0, s.limit - MAX_INT) == 0;
  }

  /** With bytes for tokens, the estimate always covers the request, as long as
      it is a machine integer. */
  lemma BytesAreCovered(messages: seq<Message>, tools: Tools, s: Setting, tail: seq<Message>)
    requires s.limit <= MAX_INT
    ensures
      var window := WithContextWindow(messages, tools, s, tail, Utf8);
      window.Some? && window.value.estimate <= MAX_INT ==>
        var whole := Estimate(window.value.messages, tools, Utf8);
        && whole.Some? && whole.value <= window.value.estimate
        && Final(s, window.value.estimate, Utf8) <= Largest(s, Utf8) + 18
  {
    hide RenderContextWindow, WithContextWindow, Estimate, Decimal, Utf8;
    var window := WithContextWindow(messages, tools, s, tail, Utf8);
    if window.Some? && window.value.estimate <= MAX_INT {
      var estimate := window.value.estimate;
      DigitsDiffer(s, estimate);
      NineteenDigits(estimate);
      NineteenDigits(Max(0, s.limit - estimate));
      EstimateCoversRequest(messages, tools, s, tail, Utf8);
    }
  }

  /** A counter that finds only the note with this estimate, and counts it for 180. */
  function Heavy(s: Setting, estimate: nat): Counter {
    text => Weight(s, estimate, text)
  }

  function Weight(s: Setting, estimate: nat, text: string): nat {
    if text == RenderContextWindow(s, estimate) then SLACK + 1 else 0
  }

  /** The final note has 180 more than the largest, and the estimate of an empty
      request is one below what the returned list counts. */
  predicate FallsShort(s: Setting, estimate: nat, count: Counter) {
    var window := WithContextWindow([], NoTools, s, [], count);
    && window.Some? && window.value.estimate == estimate
    && Final(s, estimate, count) == Largest(s, count) + SLACK + 1
    && Estimate(window.value.messages, NoTools, count) == Some(estimate + 1)
  }

  /** The bound cannot be widened: a counter that gives the final note 180 more
      makes the estimate of an empty request fall short by one. */
  lemma SlackIsNeeded(s: Setting)
    requires s.limit == 0
    ensures FallsShort(s, 404, Heavy(s, 404))
  {
    hide RenderContextWindow, Decimal, Utf8;
    var count := Heavy(s, 404);
    DigitsDiffer(s, 404);
    NineteenDigits(MAX_INT);
    ThreeDigits();
    var none: seq<Message> := [];
    assert none + none == none;
    WindowIs([], NoTools, s, [], count);
    NoteAdds([], NoTools, s, [], count, 404);
  }

  lemma ThreeDigits()
    ensures |Decimal(404)| == 3 && |Decimal(0)| == 1
  {
    assert Decimal(4) == [Digit(4)];
    assert |Decimal(40)| == 2;
  }
}
