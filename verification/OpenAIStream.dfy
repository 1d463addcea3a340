/**
  The OpenAI side of streaming: decoding upstream chunks into events
  (codec/upstream_stream.go) and encoding events as client chunks
  (codec/openai_encode_stream.go). A chunk stands for its JSON text; printing and
  parsing it are mutually inverse.
 */
module OpenAIStream {
  import opened Wrappers
  import opened Types
  import opened WebSearch

  // ----- usage and stop reasons -----

  datatype RawUsage = RawUsage(
    prompt: int, completion: int, total: int,
    cacheCreation: Option<int>, cacheRead: Option<int>,
    promptDetails: Option<PromptDetails>, completionDetails: Option<CompletionDetails>)

  datatype PromptDetails = PromptDetails(cached: Option<int>)

  datatype CompletionDetails = CompletionDetails(reasoning: Option<int>)

  function DecodeUsage(raw: RawUsage): Usage {
    Usage(Some(raw.prompt), Some(raw.completion), Some(raw.total),
          if raw.completionDetails.Some? then raw.completionDetails.value.reasoning else None,
          if raw.promptDetails.Some? && raw.promptDetails.value.cached.Some? then raw.promptDetails.value.cached
          else raw.cacheRead,
          raw.cacheCreation)
  }

  function EncodeUsage(u: Usage): RawUsage {
    var prompt := if u.input.Some? then u.input.value else 0;
    var completion := if u.output.Some? then u.output.value else 0;
    RawUsage(prompt, completion,
             if u.total.Some? then u.total.value else prompt + completion,
             u.cacheWrite, u.cacheRead,
             if u.cacheRead.Some? then Some(PromptDetails(u.cacheRead)) else None,
             if u.reasoning.Some? then Some(CompletionDetails(u.reasoning)) else None)
  }

  predicate Complete(u: Usage) {
    u.input.Some? && u.output.Some? && u.total.Some?
  }

  /** An encoded usage decodes to itself exactly when input, output and total are known. */
  lemma UsageRoundTrip(u: Usage)
    ensures DecodeUsage(EncodeUsage(u)) == u <==> Complete(u)
  {
  }

  function NormalizeStop(reason: string): string {
    match reason
    case "stop" => "end_turn"
    case "length" => "max_tokens"
    case "tool_calls" => "tool_use"
    case _ => reason
  }

  function DenormalizeStop(reason: string): string {
    match reason
    case "end_turn" => "stop"
    case "max_tokens" => "length"
    case "tool_use" => "tool_calls"
    case _ => reason
  }

  predicate Canonical(reason: string) {
    reason != "stop" && reason != "length" && reason != "tool_calls"
  }

  lemma StopRoundTrip(reason: string)
    ensures NormalizeStop(DenormalizeStop(reason)) == reason <==> Canonical(reason)
    ensures Canonical(NormalizeStop(reason))
    ensures NormalizeStop(reason) == "" <==> reason == ""
    ensures DenormalizeStop(reason) == "" <==> reason == ""
  {
  }

  // ----- chunks and lines -----

  datatype Chunk = Chunk(id: string, model: string, choices: seq<Choice>, usage: Option<RawUsage>)

  datatype Choice = Choice(delta: StreamDelta, finishReason: Option<string>)

  datatype StreamDelta = StreamDelta(
    role: string, content: Option<string>, reasoningContent: Option<string>,
    thinkingBlocks: seq<ThinkingBlock>, toolCalls: seq<StreamToolCall>)

  datatype ThinkingBlock = ThinkingBlock(kind: string, thinking: Option<string>, signature: Option<string>)

  datatype StreamToolCall = StreamToolCall(index: int, id: string, name: string, arguments: string)

  /**
    One line of the upstream body. `Data` is valid JSON: `atStart` says that the raw
    line begins with "data: ", `sources` is its OpenWebUI reading (empty if it has
    none) and `chunk` its OpenAI reading (`None` if it has another shape).
   */
  datatype Line =
    | Ignored
    | DoneMark
    | Malformed
    | Data(atStart: bool, sources: seq<Source>, chunk: Option<Chunk>)

  function At(c: Chunk, body: EventBody): StreamEvent {
    StreamEvent(c.id, c.model, body)
  }

  function ReasoningEvents(c: Chunk, d: StreamDelta): seq<StreamEvent> {
    if d.reasoningContent.Some? && d.reasoningContent.value != ""
    then [At(c, ThinkingDelta(d.reasoningContent.value))] else []
  }

  function SignatureEvents(c: Chunk, blocks: seq<ThinkingBlock>): seq<StreamEvent> {
    if blocks == [] then []
    else
      var b := blocks[|blocks| - 1];
      SignatureEvents(c, blocks[..|blocks| - 1]) +
      if b.signature.Some? && b.signature.value != "" then [At(c, ThinkingSignature(b.signature.value))] else []
  }

  function TextEvents(c: Chunk, d: StreamDelta): seq<StreamEvent> {
    if d.content.Some? && d.content.value != "" then [At(c, TextDelta(d.content.value))] else []
  }

  function ToolCallEvents(c: Chunk, tc: StreamToolCall): seq<StreamEvent> {
    (if tc.id != "" then [At(c, ToolCallStart(tc.index, tc.id, tc.name))] else []) +
    (if tc.arguments != "" then [At(c, ToolCallDelta(tc.index, tc.arguments))] else [])
  }

  function ToolEvents(c: Chunk, calls: seq<StreamToolCall>): seq<StreamEvent> {
    if calls == [] then []
    else ToolEvents(c, calls[..|calls| - 1]) + ToolCallEvents(c, calls[|calls| - 1])
  }

  function StopEvents(c: Chunk, finish: Option<string>): seq<StreamEvent> {
    if finish.Some? && finish.value != "" then [At(c, MessageStop(NormalizeStop(finish.value)))] else []
  }

  function UsageEvents(c: Chunk): seq<StreamEvent> {
    if c.usage.Some? then [At(c, UsageFinal(Some(DecodeUsage(c.usage.value))))] else []
  }

  /** Thinking, signatures, text, tool calls, stop, usage: only the first choice counts. */
  function DecodeChunk(c: Chunk): seq<StreamEvent> {
    (if c.choices == [] then []
     else
       var d := c.choices[0].delta;
       ReasoningEvents(c, d) + SignatureEvents(c, d.thinkingBlocks) + TextEvents(c, d) +
       ToolEvents(c, d.toolCalls) + StopEvents(c, c.choices[0].finishReason)) +
    UsageEvents(c)
  }

  function DecodeAll(chunks: seq<Chunk>): seq<StreamEvent> {
    if chunks == [] then [] else DecodeAll(chunks[..|chunks| - 1]) + DecodeChunk(chunks[|chunks| - 1])
  }

  datatype Decoded = Decoded(events: seq<StreamEvent>, done: bool)

  function DecodeLine(line: Line): Result<Decoded, string> {
    match line
    case Ignored => Ok(Decoded([], false))
    case DoneMark => Ok(Decoded([], true))
    case Malformed => Err("decode openai stream chunk")
    case Data(_, _, chunk) => Ok(Decoded(if chunk.Some? then DecodeChunk(chunk.value) else [], false))
  }

  /** A line the loops recognise as OpenWebUI sources. */
  predicate IsSources(line: Line) {
    line.Data? && line.atStart && Parsed(line.sources) != []
  }

  /** The events a line decodes to, whatever else it may be read as. */
  function LineEvents(line: Line): seq<StreamEvent> {
    if line.Data? && line.chunk.Some? then DecodeChunk(line.chunk.value) else []
  }

  /** The events of all lines up to `[DONE]`. */
  function AllEvents(lines: seq<Line>): seq<StreamEvent>
    decreases |lines|
  {
    if lines == [] || lines[0].DoneMark? then [] else LineEvents(lines[0]) + AllEvents(lines[1..])
  }

  /** Sources lines carry nothing else: no chunk, or a chunk without events. */
  predicate SourcesOnly(lines: seq<Line>) {
    forall line :: line in lines && IsSources(line) ==> LineEvents(line) == []
  }

  /** The events one line contributes when sources lines contribute none. */
  function EventsOf(line: Line): seq<StreamEvent> {
    if IsSources(line) then [] else LineEvents(line)
  }

  /** The events of the lines up to `[DONE]`, sources lines left out. */
  function Delivered(lines: seq<Line>): seq<StreamEvent>
    decreases |lines|
  {
    if lines == [] || lines[0].DoneMark? then [] else EventsOf(lines[0]) + Delivered(lines[1..])
  }

  /** No line before `[DONE]` is malformed. */
  predicate AllDecode(lines: seq<Line>)
    decreases |lines|
  {
    lines != [] && !lines[0].DoneMark? ==> !lines[0].Malformed? && AllDecode(lines[1..])
  }

  /** The upstream said `[DONE]`. */
  predicate SaysDone(lines: seq<Line>)
    decreases |lines|
  {
    lines != [] && (lines[0].DoneMark? || SaysDone(lines[1..]))
  }

  method DecodeOpenAIStreamLine(line: Line) returns (r: Result<Decoded, string>)
    ensures r == DecodeLine(line)
  {
    if line.Ignored? {
      return Ok(Decoded([], false));
    }
    if line.DoneMark? {
      return Ok(Decoded([], true));
    }
    if line.Malformed? {
      return Err("decode openai stream chunk");
    }
    if line.chunk.None? {
      return Ok(Decoded([], false));
    }
    var chunk := line.chunk.value;
    var events: seq<StreamEvent> := [];
    if |chunk.choices| > 0 {
      var c := chunk.choices[0];
      var d := c.delta;
      if d.reasoningContent.Some? && d.reasoningContent.value != "" {
        events := events + [StreamEvent(chunk.id, chunk.model, ThinkingDelta(d.reasoningContent.value))];
      }
      assert events == ReasoningEvents(chunk, d);
      var signatures := DecodeSignatures(chunk, d.thinkingBlocks);
      events := events + signatures;
      if d.content.Some? && d.content.value != "" {
        events := events + [StreamEvent(chunk.id, chunk.model, TextDelta(d.content.value))];
      }
      assert events == ReasoningEvents(chunk, d) + signatures + TextEvents(chunk, d);
      var calls := DecodeToolCalls(chunk, d.toolCalls);
      events := events + calls;
      if c.finishReason.Some? && c.finishReason.value != "" {
        events := events + [StreamEvent(chunk.id, chunk.model, MessageStop(NormalizeStop(c.finishReason.value)))];
      }
      assert events ==
             ReasoningEvents(chunk, d) + signatures + TextEvents(chunk, d) + calls + StopEvents(chunk, c.finishReason);
    }
    ghost var content := events;
    if chunk.usage.Some? {
      events := events + [StreamEvent(chunk.id, chunk.model, UsageFinal(Some(DecodeUsage(chunk.usage.value))))];
    }
    assert events == content + UsageEvents(chunk);
    r := Ok(Decoded(events, false));
  }

  method DecodeSignatures(chunk: Chunk, blocks: seq<ThinkingBlock>) returns (events: seq<StreamEvent>)
    ensures events == SignatureEvents(chunk, blocks)
  {
    events := [];
    for i := 0 to |blocks|
      invariant events == SignatureEvents(chunk, blocks[..i])
    {
      var tb := blocks[i];
      assert blocks[..i + 1][..i] == blocks[..i];
      if tb.signature.Some? && tb.signature.value != "" {
        events := events + [StreamEvent(chunk.id, chunk.model, ThinkingSignature(tb.signature.value))];
      }
    }
    assert blocks[..|blocks|] == blocks;
  }

  method DecodeToolCalls(chunk: Chunk, calls: seq<StreamToolCall>) returns (events: seq<StreamEvent>)
    ensures events == ToolEvents(chunk, calls)
  {
    events := [];
    for i := 0 to |calls|
      invariant events == ToolEvents(chunk, calls[..i])
    {
      var tc := calls[i];
      ghost var before := events;
      assert calls[..i + 1][..i] == calls[..i];
      if tc.id != "" {
        events := events + [StreamEvent(chunk.id, chunk.model, ToolCallStart(tc.index, tc.id, tc.name))];
      }
      if tc.arguments != "" {
        events := events + [StreamEvent(chunk.id, chunk.model, ToolCallDelta(tc.index, tc.arguments))];
      }
      assert events == before + ToolCallEvents(chunk, tc);
    }
    assert calls[..|calls|] == calls;
  }

  // ----- the client-side encoder -----

  datatype OEnc = OEnc(responseID: string, model: string, started: bool, usage: Option<Usage>, out: seq<Chunk>)

  const OInit := OEnc("", "", false, None, [])

  const NoDelta := StreamDelta("", None, None, [], [])

  function Latest(name: string, current: string): string {
    if name != "" then name else current
  }

  function Latch(e: OEnc, ev: StreamEvent): OEnc {
    e.(responseID := Latest(ev.responseID, e.responseID), model := Latest(ev.model, e.model))
  }

  function Send(e: OEnc, delta: StreamDelta, finish: Option<string>): OEnc {
    e.(out := e.out + [Chunk(e.responseID, e.model, [Choice(delta, finish)], None)])
  }

  /** The assistant role is announced once, with the first content. */
  function Role(e: OEnc): string {
    if e.started then "" else "assistant"
  }

  function OBody(e: OEnc, body: EventBody): OEnc {
    match body
    case TextDelta(text) =>
      if text == "" then e
      else Send(e, NoDelta.(role := Role(e), content := Some(text)), None).(started := true)
    case ThinkingDelta(text) =>
      if text == "" then e
      else Send(e, NoDelta.(role := Role(e), reasoningContent := Some(text)), None).(started := true)
    case ToolCallStart(index, id, name) =>
      var r := if e.started then e else Send(e, NoDelta.(role := "assistant"), None).(started := true);
      Send(r, NoDelta.(toolCalls := [StreamToolCall(index, id, name, "")]), None)
    case ToolCallDelta(index, arguments) =>
      if arguments == "" then e
      else Send(e, NoDelta.(toolCalls := [StreamToolCall(index, "", "", arguments)]), None)
    case MessageStop(reason) => Send(e, NoDelta, Some(DenormalizeStop(reason)))
    case UsageFinal(Some(u)) =>
      e.(usage := Some(u), out := e.out + [Chunk(e.responseID, e.model, [], Some(EncodeUsage(u)))])
    case _ => e
  }

  function OStep(e: OEnc, ev: StreamEvent): OEnc {
    OBody(Latch(e, ev), ev.body)
  }

  function ORun(e: OEnc, events: seq<StreamEvent>): OEnc
    decreases |events|
  {
    if events == [] then e else ORun(OStep(e, events[0]), events[1..])
  }

  class OpenAIStreamEncoder {
    var responseID: string
    var model: string
    var started: bool
    var usage: Option<Usage>

    ghost function Snapshot(lines: seq<Chunk>): OEnc
      reads this
    {
      OEnc(responseID, model, started, usage, lines)
    }

    constructor ()
      ensures Snapshot([]) == OInit
    {
      responseID, model, started, usage := "", "", false, None;
    }

    method Encode(event: StreamEvent) returns (lines: seq<Chunk>)
      modifies this
      ensures Snapshot(lines) == OStep(old(Snapshot([])), event)
    {
      hide EncodeUsage, OBody;
      if event.responseID != "" {
        responseID := event.responseID;
      }
      if event.model != "" {
        model := event.model;
      }
      if event.body.UsageFinal? && event.body.usage.Some? {
        usage := event.body.usage;
        lines := [Chunk(responseID, model, [], Some(EncodeUsage(usage.value)))];
        UsageSent(old(Snapshot([])), event, lines);
        return;
      }
      lines := EncodeBody(event.body);
    }

    method EncodeBody(body: EventBody) returns (lines: seq<Chunk>)
      requires !(body.UsageFinal? && body.usage.Some?)
      modifies this
      ensures Snapshot(lines) == OBody(old(Snapshot([])), body)
    {
      hide DenormalizeStop;
      lines := [];
      match body {
        case TextDelta(text) =>
          if text != "" {
            var delta := NoDelta.(content := Some(text));
            if !started {
              delta := delta.(role := "assistant");
              started := true;
            }
            lines := [ChunkOf(delta, None)];
          }
        case ThinkingDelta(text) =>
          if text != "" {
            var delta := NoDelta.(reasoningContent := Some(text));
            if !started {
              delta := delta.(role := "assistant");
              started := true;
            }
            lines := [ChunkOf(delta, None)];
          }
        case ToolCallStart(index, id, name) =>
          if !started {
            lines := [ChunkOf(NoDelta.(role := "assistant"), None)];
            started := true;
          }
          lines := lines + [ChunkOf(NoDelta.(toolCalls := [StreamToolCall(index, id, name, "")]), None)];
        case ToolCallDelta(index, arguments) =>
          if arguments != "" {
            lines := [ChunkOf(NoDelta.(toolCalls := [StreamToolCall(index, "", "", arguments)]), None)];
          }
        case MessageStop(reason) =>
          lines := [ChunkOf(NoDelta, Some(DenormalizeStop(reason)))];
        case _ =>
      }
    }

    function ChunkOf(delta: StreamDelta, finish: Option<string>): Chunk
      reads this
    {
      Chunk(responseID, model, [Choice(delta, finish)], None)
    }
  }

  lemma UsageSent(e: OEnc, ev: StreamEvent, lines: seq<Chunk>)
    requires ev.body.UsageFinal? && ev.body.usage.Some? && e.out == []
    requires var l := Latch(e, ev); lines == [Chunk(l.responseID, l.model, [], Some(EncodeUsage(ev.body.usage.value)))]
    ensures OStep(e, ev) == Latch(e, ev).(usage := ev.body.usage, out := lines)
  {
  }

  function OAfter(base: seq<Chunk>, e: OEnc): OEnc {
    e.(out := base + e.out)
  }

  lemma SendAfter(base: seq<Chunk>, e: OEnc, delta: StreamDelta, finish: Option<string>)
    ensures Send(OAfter(base, e), delta, finish) == OAfter(base, Send(e, delta, finish))
  {
  }

  /** What is emitted never depends on what was emitted before. */
  lemma OStepAfter(base: seq<Chunk>, e: OEnc, ev: StreamEvent)
    ensures OStep(OAfter(base, e), ev) == OAfter(base, OStep(e, ev))
  {
    var l := Latch(e, ev);
    hide Send, EncodeUsage, DenormalizeStop;
    match ev.body
    case TextDelta(text) => SendAfter(base, l, NoDelta.(role := Role(l), content := Some(text)), None);
    case ThinkingDelta(text) => SendAfter(base, l, NoDelta.(role := Role(l), reasoningContent := Some(text)), None);
    case ToolCallStart(index, id, name) =>
      SendAfter(base, l, NoDelta.(role := "assistant"), None);
      var r := if l.started then l else Send(l, NoDelta.(role := "assistant"), None).(started := true);
      SendAfter(base, r, NoDelta.(toolCalls := [StreamToolCall(index, id, name, "")]), None);
    case ToolCallDelta(index, arguments) =>
      SendAfter(base, l, NoDelta.(toolCalls := [StreamToolCall(index, "", "", arguments)]), None);
    case MessageStop(reason) => SendAfter(base, l, NoDelta, Some(DenormalizeStop(reason)));
    case UsageFinal(usage) =>
      if usage.Some? {
        var c := [Chunk(l.responseID, l.model, [], Some(EncodeUsage(usage.value)))];
        assert base + l.out + c == base + (l.out + c);
      }
    case _ =>
  }

  // ----- the round trip -----

  lemma {:induction false} DecodeAllAppend(a: seq<Chunk>, b: seq<Chunk>)
    ensures DecodeAll(a + b) == DecodeAll(a) + DecodeAll(b)
  {
    hide DecodeChunk;
    if b == [] {
      Unit(a);
      Unit(DecodeAll(a));
    } else {
      hide DecodeAll;
      var n := |b| - 1;
      DecodeAllAppend(a, b[..n]);
      DecodeAllLast(b);
      JoinedLast(a, b);
      Associate(DecodeAll(a), DecodeAll(b[..n]), DecodeChunk(b[n]));
    }
  }

  lemma JoinedLast(a: seq<Chunk>, b: seq<Chunk>)
    requires b != []
    ensures DecodeAll(a + b) == DecodeAll(a + b[..|b| - 1]) + DecodeChunk(b[|b| - 1])
  {
    hide *;
    DecodeAllLast(a + b);
    assert (a + b)[..|a + b| - 1] == a + b[..|b| - 1] && (a + b)[|a + b| - 1] == b[|b| - 1];
  }

  lemma DecodeAllLast(chunks: seq<Chunk>)
    requires chunks != []
    ensures DecodeAll(chunks) == DecodeAll(chunks[..|chunks| - 1]) + DecodeChunk(chunks[|chunks| - 1])
  {
  }

  /** The events that survive encoding as OpenAI chunks unchanged. */
  predicate Faithful(body: EventBody) {
    match body
    case TextDelta(text) => text != ""
    case ThinkingDelta(text) => text != ""
    case ToolCallStart(_, id, _) => id != ""
    case ToolCallDelta(_, arguments) => arguments != ""
    case MessageStop(reason) => reason != "" && Canonical(reason)
    case UsageFinal(usage) => usage.Some? && Complete(usage.value)
    case _ => false
  }

  /** All events of one message: the same id and model throughout. */
  predicate OneMessage(events: seq<StreamEvent>, id: string, model: string) {
    forall ev :: ev in events ==> ev.responseID == id && ev.model == model
  }

  /**
    Every event sent names what has been latched by then: none without an id or a model
    follows one that has it. Signatures are not sent, but what they name is latched.
   */
  predicate NamesHold(events: seq<StreamEvent>, id: string, model: string)
    decreases |events|
  {
    events != [] ==>
      var ev := events[0];
      var l, m := Latest(ev.responseID, id), Latest(ev.model, model);
      && (ev.body.ThinkingSignature? || (ev.responseID == l && ev.model == m))
      && NamesHold(events[1..], l, m)
  }

  lemma {:induction false} OneMessageHolds(events: seq<StreamEvent>, id: string, model: string, l: string, m: string)
    requires OneMessage(events, id, model) && l in ["", id] && m in ["", model]
    ensures NamesHold(events, l, m)
    decreases |events|
  {
    if events != [] {
      assert events[0] in events;
      OneMessageHolds(events[1..], id, model, id, model);
    }
  }

  function Kept(events: seq<StreamEvent>): seq<StreamEvent> {
    if events == [] then []
    else (if events[0].body.ThinkingSignature? then [] else [events[0]]) + Kept(events[1..])
  }

  lemma DecodeSingle(c: Chunk)
    ensures DecodeAll([c]) == DecodeChunk(c)
  {
  }

  /** A chunk with at most one tool call, no signature and no usage, as the encoder sends it. */
  lemma DecodeSent(e: OEnc, delta: StreamDelta, finish: Option<string>)
    requires delta.thinkingBlocks == [] && |delta.toolCalls| <= 1
    ensures var c := Chunk(e.responseID, e.model, [Choice(delta, finish)], None);
            DecodeAll([c]) == ReasoningEvents(c, delta) + TextEvents(c, delta) +
                              (if delta.toolCalls == [] then [] else ToolCallEvents(c, delta.toolCalls[0])) +
                              StopEvents(c, finish)
  {
    var c := Chunk(e.responseID, e.model, [Choice(delta, finish)], None);
    DecodeSingle(c);
    var tools := if delta.toolCalls == [] then [] else ToolCallEvents(c, delta.toolCalls[0]);
    hide ToolCallEvents, ReasoningEvents, TextEvents, StopEvents;
    if |delta.toolCalls| == 1 {
      assert delta.toolCalls[..0] == [];
      assert ToolEvents(c, []) == [];
    }
    assert ToolEvents(c, delta.toolCalls) == tools;
    assert ReasoningEvents(c, delta) + [] == ReasoningEvents(c, delta);
  }

  /** What one event contributes: at most one event, itself exactly when it is faithful. */
  ghost predicate Contributes(l: OEnc, body: EventBody) {
    var got, ev := DecodeAll(OBody(l, body).out), StreamEvent(l.responseID, l.model, body);
    && |got| <= 1
    && (got == [ev] <==> Faithful(body))
    && (got != [] ==> got[0].responseID == l.responseID && got[0].model == l.model)
    && (body.ThinkingSignature? ==> got == [])
  }

  lemma TextContributes(l: OEnc, body: EventBody)
    requires l.out == [] && (body.TextDelta? || body.ThinkingDelta?)
    ensures Contributes(l, body)
  {
    assert DecodeAll([]) == [];
    hide DecodeAll, DecodeChunk;
    var delta := if body.TextDelta? then NoDelta.(role := Role(l), content := Some(body.text))
                 else NoDelta.(role := Role(l), reasoningContent := Some(body.thinking));
    DecodeSent(l, delta, None);
    assert [] + [Chunk(l.responseID, l.model, [Choice(delta, None)], None)] ==
           [Chunk(l.responseID, l.model, [Choice(delta, None)], None)];
  }

  lemma ToolStartContributes(l: OEnc, body: EventBody)
    requires l.out == [] && body.ToolCallStart?
    ensures Contributes(l, body)
  {
    hide DecodeAll, DecodeChunk;
    var role, delta := NoDelta.(role := "assistant"),
      NoDelta.(toolCalls := [StreamToolCall(body.index, body.callId, body.name, "")]);
    DecodeSent(l, role, None);
    DecodeSent(l, delta, None);
    var c, d := Chunk(l.responseID, l.model, [Choice(role, None)], None),
      Chunk(l.responseID, l.model, [Choice(delta, None)], None);
    DecodeAllAppend([c], [d]);
    assert OBody(l, body).out == if l.started then [d] else [c] + [d];
    assert DecodeAll(OBody(l, body).out) == ToolCallEvents(d, delta.toolCalls[0]);
  }

  lemma ToolDeltaContributes(l: OEnc, body: EventBody)
    requires l.out == [] && body.ToolCallDelta?
    ensures Contributes(l, body)
  {
    assert DecodeAll([]) == [];
    hide DecodeAll, DecodeChunk;
    var delta := NoDelta.(toolCalls := [StreamToolCall(body.index, "", "", body.arguments)]);
    DecodeSent(l, delta, None);
    var c := Chunk(l.responseID, l.model, [Choice(delta, None)], None);
    assert [] + [c] == [c];
  }

  lemma StopContributes(l: OEnc, body: EventBody)
    requires l.out == [] && body.MessageStop?
    ensures Contributes(l, body)
  {
    hide DecodeAll, DecodeChunk;
    StopRoundTrip(body.stopReason);
    hide NormalizeStop, DenormalizeStop, Canonical;
    var finish := Some(DenormalizeStop(body.stopReason));
    DecodeSent(l, NoDelta, finish);
    var c := Chunk(l.responseID, l.model, [Choice(NoDelta, finish)], None);
    assert [] + [c] == [c];
    assert DecodeAll(OBody(l, body).out) == StopEvents(c, finish);
  }

  lemma UsageContributes(l: OEnc, body: EventBody)
    requires l.out == [] && body.UsageFinal?
    ensures Contributes(l, body)
  {
    assert DecodeAll([]) == [];
    hide DecodeAll, DecodeChunk;
    if body.usage.Some? {
      var c := Chunk(l.responseID, l.model, [], Some(EncodeUsage(body.usage.value)));
      UsageRoundTrip(body.usage.value);
      DecodeReport(l, body.usage.value);
      hide DecodeUsage, EncodeUsage, Complete;
      assert [] + [c] == [c];
      assert OBody(l, body).out == [c];
      hide OBody;
    }
  }

  lemma BodyContributes(l: OEnc, body: EventBody)
    requires l.out == []
    ensures Contributes(l, body)
  {
    match body {
      case TextDelta(_) => TextContributes(l, body);
      case ThinkingDelta(_) => TextContributes(l, body);
      case ToolCallStart(_, _, _) => ToolStartContributes(l, body);
      case ToolCallDelta(_, _) => ToolDeltaContributes(l, body);
      case MessageStop(_) => StopContributes(l, body);
      case UsageFinal(_) => UsageContributes(l, body);
      case _ =>
    }
  }

  lemma DecodeReport(l: OEnc, usage: Usage)
    ensures var c := Chunk(l.responseID, l.model, [], Some(EncodeUsage(usage)));
            DecodeAll([c]) == [At(c, UsageFinal(Some(DecodeUsage(EncodeUsage(usage)))))]
  {
  }

  /** The events decoded from what a run sends, event by event. */
  function Replay(e: OEnc, events: seq<StreamEvent>): seq<StreamEvent>
    decreases |events|
  {
    if events == [] then []
    else
      var s := OStep(e.(out := []), events[0]);
      DecodeAll(s.out) + Replay(s, events[1..])
  }

  lemma {:induction false} RunIsReplay(e: OEnc, f: OEnc, events: seq<StreamEvent>)
    requires f == e.(out := f.out)
    ensures DecodeAll(ORun(e, events).out) == DecodeAll(e.out) + Replay(f, events)
    decreases |events|
  {
    hide DecodeAll, OStep;
    if events != [] {
      var s := OStep(e.(out := []), events[0]);
      assert OAfter(e.out, e.(out := [])) == e;
      OStepAfter(e.out, e.(out := []), events[0]);
      DecodeAllAppend(e.out, s.out);
      RunIsReplay(OStep(e, events[0]), s, events[1..]);
    }
  }

  lemma {:induction false} ReplayKeeps(e: OEnc, events: seq<StreamEvent>)
    ensures |Replay(e, events)| <= |Kept(events)|
    ensures Replay(e, events) == Kept(events) <==>
            (forall ev :: ev in Kept(events) ==> Faithful(ev.body)) && NamesHold(events, e.responseID, e.model)
    decreases |events|
  {
    if events != [] {
      var ev, rest := events[0], events[1..];
      var l := Latch(e.(out := []), ev);
      var own := ev.responseID == l.responseID && ev.model == l.model;
      BodyContributes(l, ev.body);
      StillSpeaks(l, ev.body);
      var got := DecodeAll(OBody(l, ev.body).out);
      assert got == [ev] <==> Faithful(ev.body) && own;
      hide DecodeAll, OBody, Faithful;
      var s := OStep(e.(out := []), ev);
      ReplayKeeps(s, rest);
      Combine(ev, got, Replay(s, rest), Kept(rest), own, NamesHold(rest, l.responseID, l.model));
    }
  }

  lemma StillSpeaks(l: OEnc, body: EventBody)
    ensures OBody(l, body).responseID == l.responseID && OBody(l, body).model == l.model
  {
  }

  lemma Combine(ev: StreamEvent, got: seq<StreamEvent>, more: seq<StreamEvent>, kept: seq<StreamEvent>,
      own: bool, rest: bool)
    requires |got| <= 1 && |more| <= |kept|
    requires got == [ev] <==> Faithful(ev.body) && own
    requires ev.body.ThinkingSignature? ==> got == []
    requires more == kept <==> (forall x :: x in kept ==> Faithful(x.body)) && rest
    ensures var all := (if ev.body.ThinkingSignature? then [] else [ev]) + kept;
            && |got + more| <= |all|
            && (got + more == all <==>
                  (forall x :: x in all ==> Faithful(x.body)) && (ev.body.ThinkingSignature? || own) && rest)
  {
    if !ev.body.ThinkingSignature? {
      var all := [ev] + kept;
      assert forall x :: x in all <==> x == ev || x in kept;
      if got + more == all {
        assert |got| == 1;
        assert (got + more)[0] == ev;
        assert (got + more)[1..] == more && all[1..] == kept;
      }
    } else {
      assert [] + kept == kept && got + more == more;
    }
  }

  /**
    Decoding the chunks the encoder sends gives back the events, signatures aside,
    exactly when every event is faithful and names what has been latched.
   */
  lemma RoundTrip(events: seq<StreamEvent>)
    ensures DecodeAll(ORun(OInit, events).out) == Kept(events) <==>
            (forall ev :: ev in Kept(events) ==> Faithful(ev.body)) && NamesHold(events, "", "")
  {
    assert DecodeAll(OInit.out) == [];
    hide DecodeAll, ORun, Replay, Kept, Faithful;
    RunIsReplay(OInit, OInit, events);
    ReplayKeeps(OInit, events);
    Unit(Replay(OInit, events));
  }

  // ----- what the decoder produces -----

  ghost predicate AllFrom(c: Chunk, events: seq<StreamEvent>) {
    forall ev :: ev in events ==>
      && ev.responseID == c.id && ev.model == c.model
      && (Faithful(ev.body) || (ev.body.ThinkingSignature? && ev.body.signature != ""))
  }

  lemma AllFromJoin(c: Chunk, a: seq<StreamEvent>, b: seq<StreamEvent>)
    requires AllFrom(c, a) && AllFrom(c, b)
    ensures AllFrom(c, a + b)
  {
  }

  lemma DecodedParts(c: Chunk, choice: Choice)
    ensures AllFrom(c, StopEvents(c, choice.finishReason)) && AllFrom(c, UsageEvents(c))
    ensures AllFrom(c, ReasoningEvents(c, choice.delta)) && AllFrom(c, TextEvents(c, choice.delta))
    ensures AllFrom(c, SignatureEvents(c, choice.delta.thinkingBlocks)) &&
            AllFrom(c, ToolEvents(c, choice.delta.toolCalls))
  {
    DecodedSignatures(c, choice.delta.thinkingBlocks);
    DecodedTools(c, choice.delta.toolCalls);
    if choice.finishReason.Some? {
      StopRoundTrip(choice.finishReason.value);
    }
    hide NormalizeStop, SignatureEvents, ToolEvents, Canonical;
  }

  /** Every decoded event carries its chunk's identity and is faithful, signatures aside. */
  lemma DecodedEvents(c: Chunk)
    ensures AllFrom(c, DecodeChunk(c))
  {
    DecodedParts(c, if c.choices == [] then Choice(NoDelta, None) else c.choices[0]);
    if c.choices != [] {
      var d, finish := c.choices[0].delta, c.choices[0].finishReason;
      var r, s, t, l, f := ReasoningEvents(c, d), SignatureEvents(c, d.thinkingBlocks), TextEvents(c, d),
                           ToolEvents(c, d.toolCalls), StopEvents(c, finish);
      hide AllFrom, ReasoningEvents, SignatureEvents, TextEvents, ToolEvents, StopEvents, UsageEvents;
      AllFromJoin(c, r, s);
      AllFromJoin(c, r + s, t);
      AllFromJoin(c, r + s + t, l);
      AllFromJoin(c, r + s + t + l, f);
      AllFromJoin(c, r + s + t + l + f, UsageEvents(c));
    }
  }

  lemma {:induction false} DecodedSignatures(c: Chunk, blocks: seq<ThinkingBlock>)
    ensures forall ev :: ev in SignatureEvents(c, blocks) ==>
              ev.responseID == c.id && ev.model == c.model && ev.body.ThinkingSignature? && ev.body.signature != ""
  {
    if blocks != [] {
      DecodedSignatures(c, blocks[..|blocks| - 1]);
    }
  }

  lemma {:induction false} DecodedTools(c: Chunk, calls: seq<StreamToolCall>)
    ensures forall ev :: ev in ToolEvents(c, calls) ==>
              && ev.responseID == c.id && ev.model == c.model && Faithful(ev.body)
              && (ev.body.ToolCallStart? || ev.body.ToolCallDelta?)
  {
    if calls != [] {
      DecodedTools(c, calls[..|calls| - 1]);
    }
  }

  lemma {:induction false} DecodedStream(chunks: seq<Chunk>)
    ensures forall ev :: ev in DecodeAll(chunks) ==> Faithful(ev.body) || ev.body.ThinkingSignature?
  {
    if chunks != [] {
      hide DecodeChunk, Faithful;
      DecodedStream(chunks[..|chunks| - 1]);
      DecodedEvents(chunks[|chunks| - 1]);
    }
  }

  lemma {:induction false} KeptMembers(events: seq<StreamEvent>)
    ensures forall ev :: ev in Kept(events) <==> ev in events && !ev.body.ThinkingSignature?
  {
    if events != [] {
      KeptMembers(events[1..]);
      assert events == [events[0]] + events[1..];
    }
  }

  /**
    Running the gateway behind itself changes nothing but signatures: whatever the
    upstream chunks, the events relayed under one id and model come back unchanged.
   */
  lemma GatewayBehindItself(chunks: seq<Chunk>, id: string, model: string)
    requires id != "" && model != ""
    ensures var relayed := NormalizeAll(DecodeAll(chunks), id, model);
            DecodeAll(ORun(OInit, relayed).out) == Kept(relayed)
  {
    var events := DecodeAll(chunks);
    var relayed := NormalizeAll(events, id, model);
    DecodedStream(chunks);
    hide DecodeAll, ORun, Faithful, Kept;
    forall ev | ev in relayed
      ensures ev.responseID == id && ev.model == model && (Faithful(ev.body) || ev.body.ThinkingSignature?)
    {
      var i :| 0 <= i < |relayed| && relayed[i] == ev;
      assert events[i] in events;
    }
    KeptMembers(relayed);
    OneMessageHolds(relayed, id, model, "", "");
    RoundTrip(relayed);
  }
}
