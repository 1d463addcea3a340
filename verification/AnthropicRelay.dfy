/**
  The loop that relays an upstream OpenAI stream to an Anthropic client
  (`streamOpenAIToClient` in server/public_anthropic.go) and injects synthetic
  web-search blocks before the first text.
 */
module AnthropicRelay {
  import opened Wrappers
  import opened Types
  import opened AnthropicEncoder
  import opened WebSearch
  import opened OpenAIStream

  /** The client's view of the request; `toolUseId` is the random id of the synthetic blocks. */
  datatype Relay = Relay(enc: Enc, injected: bool, results: seq<WebSearchResult>, usage: Option<Usage>, done: bool)

  const Opening := Relay(Init, false, [], None, false)

  /** message_start first, then the two synthetic blocks. */
  function Inject(enc: Enc, ev: StreamEvent, results: seq<WebSearchResult>, c: Client): Enc {
    var begun := Step(enc, Named(StreamEvent(ev.responseID, ev.model, TextDelta("")), c));
    Step(begun, Named(StreamEvent("", "", WebSearch(c.toolUseId, results)), c))
  }

  predicate Triggers(r: Relay, ev: StreamEvent, c: Client) {
    !r.injected && c.hasWebSearch && ev.body.TextDelta? && ev.body.text != ""
  }

  function RelayEvent(r: Relay, ev: StreamEvent, c: Client): Relay {
    var n := Named(ev, c);
    Relay(Step(if Triggers(r, n, c) then Inject(r.enc, n, r.results, c) else r.enc, n),
          r.injected || Triggers(r, n, c),
          r.results,
          if ev.body.UsageFinal? && ev.body.usage.Some? then ev.body.usage else r.usage,
          r.done)
  }

  function RelayEvents(r: Relay, events: seq<StreamEvent>, c: Client): Relay
    decreases |events|
  {
    if events == [] then r else RelayEvents(RelayEvent(r, events[0], c), events[1..], c)
  }

  function RelayLine(r: Relay, line: Line, c: Client): Relay {
    if c.hasWebSearch && !r.injected && IsSources(line) then r.(results := Parsed(line.sources))
    else
      match DecodeLine(line)
      case Err(_) => r
      case Ok(d) =>
        var s := RelayEvents(r, d.events, c);
        if d.done then s.(enc := Finish(s.enc), done := true) else s
  }

  function RelayLines(r: Relay, lines: seq<Line>, c: Client): Relay
    decreases |lines|
  {
    if lines == [] || r.done then r else RelayLines(RelayLine(r, lines[0], c), lines[1..], c)
  }

  // ----- the loop -----

  method StreamOpenAIToClient(lines: seq<Line>, c: Client) returns (out: seq<Sse>, usageResult: Option<Usage>)
    ensures var r := RelayLines(Opening, lines, c); out == r.enc.out && usageResult == r.usage
  {
    usageResult := None;
    var webSearchInjected := false;
    var webSearchResults: seq<WebSearchResult> := [];
    var anthEnc := new AnthropicStreamEncoder();
    out := [];
    var done := false;
    var i := 0;
    while i < |lines| && !done
      invariant 0 <= i <= |lines|
      invariant RelayLines(Opening, lines, c) ==
                RelayLines(Relay(anthEnc.Snapshot(out), webSearchInjected, webSearchResults, usageResult, done),
                    lines[i..], c)
      decreases |lines| - i
    {
      var line := lines[i];
      ghost var r := Relay(anthEnc.Snapshot(out), webSearchInjected, webSearchResults, usageResult, done);
      assert lines[i..][0] == line && lines[i..][1..] == lines[i + 1..];
      i := i + 1;
      var captured := false;
      if c.hasWebSearch && !webSearchInjected && line.Data? && line.atStart {
        var results := ParseOpenWebUISources(line.sources);
        if results != [] {
          webSearchResults := results;
          captured := true;
        }
      }
      if !captured {
        var decoded := DecodeOpenAIStreamLine(line);
        if decoded.Ok? {
          out, webSearchInjected, usageResult :=
            RelayDecoded(anthEnc, out, decoded.value.events, webSearchInjected, webSearchResults, usageResult, c);
          if decoded.value.done {
            out := EmitDone(anthEnc, out);
            done := true;
          }
        }
      }
    }
  }

  method RelayDecoded(anthEnc: AnthropicStreamEncoder, before: seq<Sse>, events: seq<StreamEvent>, injectedBefore: bool,
                      webSearchResults: seq<WebSearchResult>, usageBefore: Option<Usage>, c: Client)
    returns (out: seq<Sse>, webSearchInjected: bool, usageResult: Option<Usage>)
    modifies anthEnc
    ensures Relay(anthEnc.Snapshot(out), webSearchInjected, webSearchResults, usageResult, false) ==
            RelayEvents(Relay(old(anthEnc.Snapshot(before)), injectedBefore, webSearchResults, usageBefore, false),
                events, c)
  {
    out, webSearchInjected, usageResult := before, injectedBefore, usageBefore;
    for k := 0 to |events|
      invariant RelayEvents(Relay(old(anthEnc.Snapshot(before)), injectedBefore, webSearchResults, usageBefore, false),
                events, c) ==
                RelayEvents(Relay(anthEnc.Snapshot(out), webSearchInjected, webSearchResults, usageResult, false),
                    events[k..], c)
    {
      assert events[k..][0] == events[k] && events[k..][1..] == events[k + 1..];
      var ev := events[k];
      if ev.body.UsageFinal? && ev.body.usage.Some? {
        usageResult := ev.body.usage;
      }
      ev := NormalizeStreamEvent(ev, c.responseID, c.model);
      if !webSearchInjected && c.hasWebSearch && ev.body.TextDelta? && ev.body.text != "" {
        out := Emit(anthEnc, out,
            NormalizeStreamEvent(StreamEvent(ev.responseID, ev.model, TextDelta("")), c.responseID, c.model));
        out := Emit(anthEnc, out, NormalizeStreamEvent(
            StreamEvent("", "", WebSearch(c.toolUseId, webSearchResults)), c.responseID, c.model));
        webSearchInjected := true;
      }
      out := Emit(anthEnc, out, ev);
    }
  }

  /** Encode one event and print it after what was printed before. */
  method Emit(anthEnc: AnthropicStreamEncoder, before: seq<Sse>, ev: StreamEvent) returns (out: seq<Sse>)
    modifies anthEnc
    ensures anthEnc.Snapshot(out) == Step(old(anthEnc.Snapshot(before)), ev)
  {
    ghost var s := anthEnc.Snapshot([]);
    StepAfter(before, s, ev);
    assert before + [] == before;
    var lines := anthEnc.Encode(ev);
    out := before + lines;
  }

  method EmitDone(anthEnc: AnthropicStreamEncoder, before: seq<Sse>) returns (out: seq<Sse>)
    modifies anthEnc
    ensures anthEnc.Snapshot(out) == Finish(old(anthEnc.Snapshot(before)))
  {
    FinishAfter(before, anthEnc.Snapshot([]));
    assert before + [] == before;
    var lines := anthEnc.Done();
    out := before + lines;
  }

  // ----- injection as a pure insertion -----

  function ShiftIndex(i: nat, p: nat): nat {
    if i >= p then i + 2 else i
  }

  function Shift(x: Sse, p: nat): Sse {
    match x
    case BlockStart(i, h) => BlockStart(ShiftIndex(i, p), h)
    case BlockDelta(i, d) => BlockDelta(ShiftIndex(i, p), d)
    case BlockStop(i) => BlockStop(ShiftIndex(i, p))
    case _ => x
  }

  function ShiftAll(trace: seq<Sse>, p: nat): seq<Sse> {
    seq(|trace|, i requires 0 <= i < |trace| => Shift(trace[i], p))
  }

  /** Two complete blocks, numbered `p` and `p + 1`. */
  function SearchBlocks(p: nat, id: string, results: seq<WebSearchResult>): seq<Sse> {
    [BlockStart(p, ServerToolUseHeader(id)), BlockStop(p),
     BlockStart(p + 1, SearchResultHeader(id, results)), BlockStop(p + 1)]
  }

  predicate StartsText(x: Sse) {
    x.BlockStart? && x.header.TextHeader?
  }

  /** Position of the first text block, or the length of the trace. */
  function FirstText(trace: seq<Sse>): (j: nat)
    ensures j <= |trace|
    ensures forall k :: 0 <= k < j ==> !StartsText(trace[k])
    ensures j < |trace| ==> StartsText(trace[j])
  {
    if trace == [] then 0
    else if FirstText(trace[..|trace| - 1]) < |trace| - 1 then FirstText(trace[..|trace| - 1])
    else if StartsText(trace[|trace| - 1]) then |trace| - 1
    else |trace|
  }

  /** The two blocks inserted just before the first text block, everything after renumbered. */
  function WithSearch(trace: seq<Sse>, id: string, results: seq<WebSearchResult>): seq<Sse> {
    var j := FirstText(trace);
    if j == |trace| then trace
    else trace[..j] + SearchBlocks(trace[j].index, id, results) + ShiftAll(trace[j..], trace[j].index)
  }

  // ----- after the injection: every state is the plain one, lifted -----

  /** The plain state with `ins` inserted after its first `n` emissions and indices from `p` on shifted. */
  function Lift(e: Enc, n: nat, p: nat, ins: seq<Sse>): Enc
    requires n <= |e.out|
  {
    e.(blockIdx := e.blockIdx + 2,
       toolCallBlocks := map k | k in e.toolCallBlocks :: ShiftIndex(e.toolCallBlocks[k], p),
       out := e.out[..n] + ins + ShiftAll(e.out[n..], p))
  }

  lemma PutLift(e: Enc, n: nat, p: nat, ins: seq<Sse>, x: Sse)
    requires n <= |e.out|
    ensures Put(Lift(e, n, p, ins), Shift(x, p)) == Lift(Put(e, x), n, p, ins)
  {
  }

  lemma CloseLift(e: Enc, n: nat, p: nat, ins: seq<Sse>)
    requires n <= |e.out| && p <= e.blockIdx
    ensures n <= |Close(e).out| && p <= Close(e).blockIdx
    ensures Close(Lift(e, n, p, ins)) == Lift(Close(e), n, p, ins)
  {
    PutLift(e, n, p, ins, BlockStop(e.blockIdx));
  }

  lemma OpenLift(e: Enc, n: nat, p: nat, ins: seq<Sse>, h: Header, blockType: string)
    requires n <= |e.out| && p <= e.blockIdx
    ensures Open(Lift(e, n, p, ins), h, blockType) == Lift(Open(e, h, blockType), n, p, ins)
  {
  }

  lemma EnsureLift(e: Enc, n: nat, p: nat, ins: seq<Sse>, blockType: string)
    requires n <= |e.out| && p <= e.blockIdx
    ensures n <= |EnsureBlock(e, blockType).out| && p <= EnsureBlock(e, blockType).blockIdx
    ensures EnsureBlock(Lift(e, n, p, ins), blockType) == Lift(EnsureBlock(e, blockType), n, p, ins)
  {
    CloseLift(e, n, p, ins);
    OpenLift(Close(e), n, p, ins, if blockType == "text" then TextHeader else ThinkingHeader, blockType);
  }

  lemma StandaloneLift(e: Enc, n: nat, p: nat, ins: seq<Sse>, h: Header)
    requires n <= |e.out| && p <= e.blockIdx
    ensures n <= |Standalone(e, h).out| && p <= Standalone(e, h).blockIdx
    ensures Standalone(Lift(e, n, p, ins), h) == Lift(Standalone(e, h), n, p, ins)
  {
    CloseLift(e, n, p, ins);
    OpenLift(Close(e), n, p, ins, h, "");
    CloseLift(Open(Close(e), h, ""), n, p, ins);
  }

  lemma EmitLift(e: Enc, n: nat, p: nat, ins: seq<Sse>)
    requires n <= |e.out|
    ensures EmitMessageDelta(Lift(e, n, p, ins)) == Lift(EmitMessageDelta(e), n, p, ins)
  {
    PutLift(e, n, p, ins, EmitMessageDelta(e).out[|e.out|]);
  }

  lemma ToolStartLift(e: Enc, n: nat, p: nat, ins: seq<Sse>, index: int, id: string, name: string)
    requires n <= |e.out| && p <= e.blockIdx
    ensures StartToolCall(Lift(e, n, p, ins), index, id, name) == Lift(StartToolCall(e, index, id, name), n, p, ins)
  {
    var m := e.(toolCallBlocks := e.toolCallBlocks[index := e.blockIdx]);
    assert Lift(m, n, p, ins).toolCallBlocks == Lift(e, n, p, ins).toolCallBlocks[index := e.blockIdx + 2];
    OpenLift(m, n, p, ins, ToolUseHeader(id, name), e.blockType);
  }

  ghost predicate Commutes(e: Enc, n: nat, p: nat, ins: seq<Sse>, body: EventBody)
    requires n <= |e.out|
  {
    var t := Dispatch(e, body);
    && n <= |t.out|
    && p <= t.blockIdx
    && Dispatch(Lift(e, n, p, ins), body) == Lift(t, n, p, ins)
  }

  lemma PieceLift(e: Enc, n: nat, p: nat, ins: seq<Sse>, body: EventBody)
    requires n <= |e.out| && p <= e.blockIdx && (body.TextDelta? || body.ThinkingDelta? || body.ThinkingSignature?)
    ensures Commutes(e, n, p, ins, body)
  {
    var wanted := if body.TextDelta? then "text" else "thinking";
    EnsureLift(e, n, p, ins, wanted);
    hide EnsureBlock, ShiftAll;
    var b := EnsureBlock(e, wanted);
    match body
    case TextDelta(text) => PutLift(b, n, p, ins, BlockDelta(b.blockIdx, TextPiece(text)));
    case ThinkingDelta(text) => PutLift(b, n, p, ins, BlockDelta(b.blockIdx, ThinkingPiece(text)));
    case ThinkingSignature(signature) => PutLift(b, n, p, ins, BlockDelta(b.blockIdx, SignaturePiece(signature)));
  }

  lemma ToolLift(e: Enc, n: nat, p: nat, ins: seq<Sse>, body: EventBody)
    requires n <= |e.out| && p <= e.blockIdx && (body.ToolCallStart? || body.ToolCallDelta? || body.ToolCallEnd?)
    ensures Commutes(e, n, p, ins, body)
  {
    match body
    case ToolCallStart(index, id, name) =>
      CloseLift(e, n, p, ins);
      hide StartToolCall, Close, ShiftAll;
      ToolStartLift(Close(e), n, p, ins, index, id, name);
      StartedGrows(Close(e), index, id, name);
    case ToolCallDelta(index, arguments) =>
      PutLift(e, n, p, ins, BlockDelta(Target(e, index), InputJsonPiece(arguments)));
    case ToolCallEnd =>
      CloseLift(e, n, p, ins);
  }

  lemma TailLift(e: Enc, n: nat, p: nat, ins: seq<Sse>, body: EventBody)
    requires n <= |e.out| && p <= e.blockIdx && (body.MessageStop? || body.UsageFinal?)
    ensures Commutes(e, n, p, ins, body)
  {
    hide ShiftAll;
    if body.MessageStop? {
      CloseLift(e, n, p, ins);
      hide Close;
      EmitLift(Close(e).(stopReason := body.stopReason), n, p, ins);
    } else {
      EmitLift(e, n, p, ins);
    }
  }

  lemma SearchLift(e: Enc, n: nat, p: nat, ins: seq<Sse>, body: EventBody)
    requires n <= |e.out| && p <= e.blockIdx && body.WebSearch?
    ensures Commutes(e, n, p, ins, body)
  {
    CloseLift(e, n, p, ins);
    hide Close, Standalone, ShiftAll;
    var s := ServerToolUseHeader(body.toolUseId);
    StandaloneLift(Close(e), n, p, ins, s);
    StandaloneLift(Standalone(Close(e), s), n, p, ins, SearchResultHeader(body.toolUseId, body.results));
  }

  lemma DispatchLift(e: Enc, n: nat, p: nat, ins: seq<Sse>, body: EventBody)
    requires n <= |e.out| && p <= e.blockIdx
    ensures Commutes(e, n, p, ins, body)
  {
    hide Commutes;
    match body {
      case TextDelta(_) => PieceLift(e, n, p, ins, body);
      case ThinkingDelta(_) => PieceLift(e, n, p, ins, body);
      case ThinkingSignature(_) => PieceLift(e, n, p, ins, body);
      case MessageStop(_) => TailLift(e, n, p, ins, body);
      case UsageFinal(_) => TailLift(e, n, p, ins, body);
      case WebSearch(_, _) => SearchLift(e, n, p, ins, body);
      case _ => ToolLift(e, n, p, ins, body);
    }
  }

  lemma StartedGrows(e: Enc, index: int, id: string, name: string)
    ensures var t := StartToolCall(e, index, id, name); t.blockIdx == e.blockIdx && |t.out| == |e.out| + 1
  {
  }

  lemma StepLift(e: Enc, n: nat, p: nat, ins: seq<Sse>, ev: StreamEvent)
    requires n <= |e.out| && p <= e.blockIdx
    ensures n <= |Step(e, ev).out| && p <= Step(e, ev).blockIdx
    ensures Step(Lift(e, n, p, ins), ev) == Lift(Step(e, ev), n, p, ins)
  {
    hide Dispatch, ShiftAll;
    var u := NoteUsage(e, ev);
    PutLift(u, n, p, ins, MessageStart(ev.responseID, ev.model, Payload(u.usage)));
    DispatchLift(StartMessage(u, ev), n, p, ins, ev.body);
  }

  lemma FinishLift(e: Enc, n: nat, p: nat, ins: seq<Sse>)
    requires n <= |e.out| && p <= e.blockIdx
    ensures n <= |Finish(e).out|
    ensures Finish(Lift(e, n, p, ins)) == Lift(Finish(e), n, p, ins)
  {
    CloseLift(e, n, p, ins);
    hide Close, ShiftAll;
    var c := Close(e);
    EmitLift(c, n, p, ins);
    var d := if !c.messageDeltaEmitted && (c.stopReason != "" || c.usage.Some?) then EmitMessageDelta(c) else c;
    PutLift(d, n, p, ins, MessageEnd);
  }
}
