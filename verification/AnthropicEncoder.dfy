/**
  The client-side Anthropic SSE encoder of codec/anthropic_encode_stream.go:
  the state machine as a class, and the transition function it refines.
 */
module AnthropicEncoder {
  import opened Wrappers
  import opened Types

  datatype Header =
    | TextHeader
    | ThinkingHeader
    | ToolUseHeader(id: string, name: string)
    | ServerToolUseHeader(id: string)
    | SearchResultHeader(id: string, results: seq<WebSearchResult>)

  /** What `blockType` holds while a block with this header is open. */
  function TypeOf(h: Header): string {
    if h.TextHeader? then "text" else if h.ThinkingHeader? then "thinking" else ""
  }

  datatype Delta =
    | TextPiece(text: string)
    | ThinkingPiece(thinking: string)
    | SignaturePiece(signature: string)
    | InputJsonPiece(partial: string)

  datatype UsagePayload = UsagePayload(
    inputTokens: int, outputTokens: int, cacheCreation: Option<int>, cacheRead: Option<int>)

  /** One server-sent event, before it is printed as JSON. */
  datatype Sse =
    | MessageStart(id: string, model: string, usage: UsagePayload)
    | BlockStart(index: nat, header: Header)
    | BlockDelta(index: nat, delta: Delta)
    | BlockStop(index: nat)
    | MessageDelta(stopReason: string, usage: UsagePayload)
    | MessageEnd

  /** The encoder's fields together with everything it has emitted. */
  datatype Enc = Enc(
    messageStarted: bool,
    blockIdx: nat,
    blockOpen: bool,
    blockType: string,
    stopReason: string,
    usage: Option<Usage>,
    messageDeltaEmitted: bool,
    toolCallBlocks: map<int, nat>,
    out: seq<Sse>)

  const Init := Enc(false, 0, false, "", "", None, false, map[], [])

  // ----- the transition function, one emission at a time -----

  function Put(s: Enc, x: Sse): Enc {
    s.(out := s.out + [x])
  }

  function Close(s: Enc): Enc {
    if !s.blockOpen then s
    else Put(s, BlockStop(s.blockIdx)).(blockOpen := false, blockType := "", blockIdx := s.blockIdx + 1)
  }

  function Open(s: Enc, h: Header, blockType: string): Enc {
    Put(s, BlockStart(s.blockIdx, h)).(blockOpen := true, blockType := blockType)
  }

  function EnsureBlock(s: Enc, blockType: string): Enc {
    if s.blockOpen && s.blockType == blockType then s
    else Open(Close(s), if blockType == "text" then TextHeader else ThinkingHeader, blockType)
  }

  /** A block that is complete as soon as it starts. */
  function Standalone(s: Enc, h: Header): Enc {
    Close(Open(Close(s), h, ""))
  }

  function Payload(usage: Option<Usage>): UsagePayload {
    match usage
    case None => UsagePayload(0, 0, None, None)
    case Some(u) =>
      UsagePayload(if u.input.Some? then u.input.value else 0,
                   if u.output.Some? then u.output.value else 0,
                   u.cacheWrite, u.cacheRead)
  }

  function EmitMessageDelta(s: Enc): Enc {
    Put(s, MessageDelta(if s.stopReason == "" then "end_turn" else s.stopReason, Payload(s.usage)))
      .(messageDeltaEmitted := true)
  }

  function NoteUsage(s: Enc, ev: StreamEvent): Enc {
    if ev.body.UsageFinal? && ev.body.usage.Some? then s.(usage := ev.body.usage) else s
  }

  function StartMessage(s: Enc, ev: StreamEvent): Enc {
    if !s.messageStarted && Identified(ev) then
      Put(s, MessageStart(ev.responseID, ev.model, Payload(s.usage))).(messageStarted := true)
    else s
  }

  /** The block a tool delta is sent to: the mapped one, else the current index. */
  function Target(s: Enc, index: int): nat {
    if index in s.toolCallBlocks then s.toolCallBlocks[index] else s.blockIdx
  }

  function StartToolCall(s: Enc, index: int, id: string, name: string): Enc {
    Open(s.(toolCallBlocks := s.toolCallBlocks[index := s.blockIdx]), ToolUseHeader(id, name), s.blockType)
  }

  function Dispatch(s: Enc, body: EventBody): Enc {
    match body
    case TextDelta(text) =>
      if text == "" then s
      else var b := EnsureBlock(s, "text"); Put(b, BlockDelta(b.blockIdx, TextPiece(text)))
    case ThinkingDelta(text) =>
      var b := EnsureBlock(s, "thinking"); Put(b, BlockDelta(b.blockIdx, ThinkingPiece(text)))
    case ThinkingSignature(signature) =>
      var b := EnsureBlock(s, "thinking");
      if signature == "" then b else Put(b, BlockDelta(b.blockIdx, SignaturePiece(signature)))
    case ToolCallStart(index, id, name) => StartToolCall(Close(s), index, id, name)
    case ToolCallDelta(index, arguments) => Put(s, BlockDelta(Target(s, index), InputJsonPiece(arguments)))
    case ToolCallEnd => Close(s)
    case WebSearch(id, results) =>
      Standalone(Standalone(Close(s), ServerToolUseHeader(id)), SearchResultHeader(id, results))
    case MessageStop(reason) =>
      var c := Close(s).(stopReason := reason);
      if c.usage.Some? && !c.messageDeltaEmitted then EmitMessageDelta(c) else c
    case UsageFinal(_) =>
      if s.stopReason != "" && !s.messageDeltaEmitted then EmitMessageDelta(s) else s
  }

  function Step(s: Enc, ev: StreamEvent): Enc {
    Dispatch(StartMessage(NoteUsage(s, ev), ev), ev.body)
  }

  function Finish(s: Enc): Enc {
    var c := Close(s);
    var d := if !c.messageDeltaEmitted && (c.stopReason != "" || c.usage.Some?) then EmitMessageDelta(c) else c;
    Put(d, MessageEnd)
  }

  function Run(s: Enc, events: seq<StreamEvent>): Enc
    decreases |events|
  {
    if events == [] then s else Run(Step(s, events[0]), events[1..])
  }

  lemma RunSnoc(s: Enc, events: seq<StreamEvent>, ev: StreamEvent)
    ensures Run(s, events + [ev]) == Step(Run(s, events), ev)
    decreases |events|
  {
    if events == [] {
      assert Run(s, [ev]) == Run(Step(s, ev), []);
    } else {
      assert (events + [ev])[1..] == events[1..] + [ev];
      RunSnoc(Step(s, events[0]), events[1..], ev);
    }
  }

  /** `s` continued after `base` had already been emitted. */
  function After(base: seq<Sse>, s: Enc): Enc {
    s.(out := base + s.out)
  }

  lemma PutAfter(base: seq<Sse>, s: Enc, x: Sse)
    ensures Put(After(base, s), x) == After(base, Put(s, x))
  {
  }

  lemma CloseAfter(base: seq<Sse>, s: Enc)
    ensures Close(After(base, s)) == After(base, Close(s))
  {
  }

  lemma OpenAfter(base: seq<Sse>, s: Enc, h: Header, blockType: string)
    ensures Open(After(base, s), h, blockType) == After(base, Open(s, h, blockType))
  {
  }

  lemma EnsureBlockAfter(base: seq<Sse>, s: Enc, blockType: string)
    ensures EnsureBlock(After(base, s), blockType) == After(base, EnsureBlock(s, blockType))
  {
    CloseAfter(base, s);
    OpenAfter(base, Close(s), if blockType == "text" then TextHeader else ThinkingHeader, blockType);
  }

  lemma StandaloneAfter(base: seq<Sse>, s: Enc, h: Header)
    ensures Standalone(After(base, s), h) == After(base, Standalone(s, h))
  {
    CloseAfter(base, s);
    OpenAfter(base, Close(s), h, "");
    CloseAfter(base, Open(Close(s), h, ""));
  }

  lemma EmitMessageDeltaAfter(base: seq<Sse>, s: Enc)
    ensures EmitMessageDelta(After(base, s)) == After(base, EmitMessageDelta(s))
  {
  }

  lemma DispatchAfter(base: seq<Sse>, s: Enc, body: EventBody)
    ensures Dispatch(After(base, s), body) == After(base, Dispatch(s, body))
  {
    CloseAfter(base, s);
    hide Close, EnsureBlock, Standalone, EmitMessageDelta;
    match body
    case TextDelta(text) =>
      EnsureBlockAfter(base, s, "text");
      var b := EnsureBlock(s, "text");
      PutAfter(base, b, BlockDelta(b.blockIdx, TextPiece(text)));
    case ThinkingDelta(text) =>
      EnsureBlockAfter(base, s, "thinking");
      var b := EnsureBlock(s, "thinking");
      PutAfter(base, b, BlockDelta(b.blockIdx, ThinkingPiece(text)));
    case ThinkingSignature(signature) =>
      EnsureBlockAfter(base, s, "thinking");
      var b := EnsureBlock(s, "thinking");
      PutAfter(base, b, BlockDelta(b.blockIdx, SignaturePiece(signature)));
    case ToolCallStart(index, id, name) =>
      var c := Close(s);
      OpenAfter(base, c.(toolCallBlocks := c.toolCallBlocks[index := c.blockIdx]),
          ToolUseHeader(id, name), c.blockType);
    case ToolCallDelta(index, arguments) =>
      PutAfter(base, s, BlockDelta(Target(s, index), InputJsonPiece(arguments)));
    case ToolCallEnd =>
    case WebSearch(id, results) =>
      StandaloneAfter(base, Close(s), ServerToolUseHeader(id));
      StandaloneAfter(base, Standalone(Close(s), ServerToolUseHeader(id)), SearchResultHeader(id, results));
    case MessageStop(reason) => EmitMessageDeltaAfter(base, Close(s).(stopReason := reason));
    case UsageFinal(_) => EmitMessageDeltaAfter(base, s);
  }

  /** What is emitted never depends on what was emitted before. */
  lemma StepAfter(base: seq<Sse>, s: Enc, ev: StreamEvent)
    ensures Step(After(base, s), ev) == After(base, Step(s, ev))
  {
    var n := NoteUsage(s, ev);
    PutAfter(base, n, MessageStart(ev.responseID, ev.model, Payload(n.usage)));
    DispatchAfter(base, StartMessage(n, ev), ev.body);
  }

  lemma FinishAfter(base: seq<Sse>, s: Enc)
    ensures Finish(After(base, s)) == After(base, Finish(s))
  {
    CloseAfter(base, s);
    var c := Close(s);
    EmitMessageDeltaAfter(base, c);
    var d := if !c.messageDeltaEmitted && (c.stopReason != "" || c.usage.Some?) then EmitMessageDelta(c) else c;
    PutAfter(base, d, MessageEnd);
  }

  // ----- the encoder object -----

  class AnthropicStreamEncoder {
    var messageStarted: bool
    var blockIdx: nat
    var blockOpen: bool
    var blockType: string
    var stopReason: string
    var usage: Option<Usage>
    var messageDeltaEmitted: bool
    var toolCallBlocks: map<int, nat>

    /** The abstract state of the object once `lines` has been written. */
    ghost function Snapshot(lines: seq<Sse>): Enc
      reads this
    {
      Enc(messageStarted, blockIdx, blockOpen, blockType, stopReason, usage, messageDeltaEmitted, toolCallBlocks, lines)
    }

    constructor ()
      ensures Snapshot([]) == Init
    {
      messageStarted, blockIdx, blockOpen, blockType := false, 0, false, "";
      stopReason, usage, messageDeltaEmitted, toolCallBlocks := "", None, false, map[];
    }

    method Encode(event: StreamEvent) returns (lines: seq<Sse>)
      modifies this
      ensures Snapshot(lines) == Step(old(Snapshot([])), event)
    {
      lines := [];
      if event.body.UsageFinal? && event.body.usage.Some? {
        usage := event.body.usage;
      }
      if !messageStarted && (event.responseID != "" || event.model != "") {
        var payload := UsagePayloadOf();
        lines := lines + [MessageStart(event.responseID, event.model, payload)];
        messageStarted := true;
      }
      lines := EncodeBody(lines, event.body);
    }

    method EncodeBody(sofar: seq<Sse>, body: EventBody) returns (lines: seq<Sse>)
      modifies this
      ensures Snapshot(lines) == Dispatch(old(Snapshot(sofar)), body)
    {
      hide Close, EnsureBlock, Standalone, EmitMessageDelta;
      lines := sofar;
      match body {
        case TextDelta(text) =>
          if text != "" {
            lines := EnsureBlockStart(lines, "text");
            lines := lines + [BlockDelta(blockIdx, TextPiece(text))];
          }
        case ThinkingDelta(text) =>
          lines := EnsureBlockStart(lines, "thinking");
          lines := lines + [BlockDelta(blockIdx, ThinkingPiece(text))];
        case ThinkingSignature(signature) =>
          lines := EnsureBlockStart(lines, "thinking");
          if signature != "" {
            lines := lines + [BlockDelta(blockIdx, SignaturePiece(signature))];
          }
        case ToolCallStart(index, id, name) =>
          lines := CloseBlock(lines);
          toolCallBlocks := toolCallBlocks[index := blockIdx];
          lines := lines + [BlockStart(blockIdx, ToolUseHeader(id, name))];
          blockOpen := true;
        case ToolCallDelta(index, arguments) =>
          var idx := blockIdx;
          if index in toolCallBlocks {
            idx := toolCallBlocks[index];
          }
          lines := lines + [BlockDelta(idx, InputJsonPiece(arguments))];
        case ToolCallEnd =>
          lines := CloseBlock(lines);
        case WebSearch(id, results) =>
          lines := CloseBlock(lines);
          lines := EmitStandaloneBlock(lines, ServerToolUseHeader(id));
          lines := EmitStandaloneBlock(lines, SearchResultHeader(id, results));
        case MessageStop(reason) =>
          lines := CloseBlock(lines);
          stopReason := reason;
          if usage.Some? && !messageDeltaEmitted {
            lines := AppendMessageDelta(lines);
          }
        case UsageFinal(_) =>
          if stopReason != "" && !messageDeltaEmitted {
            lines := AppendMessageDelta(lines);
          }
      }
    }

    method Done() returns (lines: seq<Sse>)
      modifies this
      ensures Snapshot(lines) == Finish(old(Snapshot([])))
    {
      lines := CloseBlock([]);
      if !messageDeltaEmitted && (stopReason != "" || usage.Some?) {
        lines := AppendMessageDelta(lines);
      }
      lines := lines + [MessageEnd];
    }

    method EnsureBlockStart(lines: seq<Sse>, wanted: string) returns (r: seq<Sse>)
      modifies this
      ensures Snapshot(r) == EnsureBlock(old(Snapshot(lines)), wanted)
    {
      r := lines;
      if blockOpen {
        if blockType == wanted {
          return;
        }
        r := CloseBlock(r);
      }
      r := r + [BlockStart(blockIdx, if wanted == "text" then TextHeader else ThinkingHeader)];
      blockOpen := true;
      blockType := wanted;
    }

    method CloseBlock(lines: seq<Sse>) returns (r: seq<Sse>)
      modifies this
      ensures Snapshot(r) == Close(old(Snapshot(lines)))
    {
      r := lines;
      if !blockOpen {
        return;
      }
      r := r + [BlockStop(blockIdx)];
      blockOpen := false;
      blockType := "";
      blockIdx := blockIdx + 1;
    }

    method EmitStandaloneBlock(lines: seq<Sse>, header: Header) returns (r: seq<Sse>)
      modifies this
      ensures Snapshot(r) == Standalone(old(Snapshot(lines)), header)
    {
      r := CloseBlock(lines);
      r := r + [BlockStart(blockIdx, header)];
      r := r + [BlockStop(blockIdx)];
      blockOpen := false;
      blockType := "";
      blockIdx := blockIdx + 1;
    }

    method AppendMessageDelta(lines: seq<Sse>) returns (r: seq<Sse>)
      modifies this
      ensures Snapshot(r) == EmitMessageDelta(old(Snapshot(lines)))
    {
      var reason := stopReason;
      if reason == "" {
        reason := "end_turn";
      }
      var payload := UsagePayloadOf();
      messageDeltaEmitted := true;
      r := lines + [MessageDelta(reason, payload)];
    }

    method UsagePayloadOf() returns (payload: UsagePayload)
      ensures payload == Payload(usage)
    {
      payload := UsagePayload(0, 0, None, None);
      if usage.None? {
        return;
      }
      if usage.value.input.Some? {
        payload := payload.(inputTokens := usage.value.input.value);
      }
      if usage.value.output.Some? {
        payload := payload.(outputTokens := usage.value.output.value);
      }
      if usage.value.cacheWrite.Some? {
        payload := payload.(cacheCreation := usage.value.cacheWrite);
      }
      if usage.value.cacheRead.Some? {
        payload := payload.(cacheRead := usage.value.cacheRead);
      }
    }
  }
}
