/**
  What every run of the Anthropic encoder keeps, whatever the events: block
  starts and stops alternate with indices 0, 1, 2, ..., and `message_delta` is
  emitted at most once.
 */
module Bookkeeping {
  import opened Wrappers
  import opened Types
  import opened AnthropicEncoder

  datatype Boundary = Starts(index: nat) | Stops(index: nat)

  function Boundaries(trace: seq<Sse>): seq<Boundary> {
    if trace == [] then []
    else
      Boundaries(trace[..|trace| - 1]) +
      match trace[|trace| - 1] {
        case BlockStart(i, _) => [Starts(i)]
        case BlockStop(i) => [Stops(i)]
        case _ => []
      }
  }

  /** Start 0, stop 0, start 1, stop 1, ... */
  function Alternating(n: nat): seq<Boundary> {
    seq(n, k requires 0 <= k < n => if k % 2 == 0 then Starts(k / 2) else Stops(k / 2))
  }

  function MessageDeltas(trace: seq<Sse>): seq<Sse> {
    if trace == [] then []
    else
      MessageDeltas(trace[..|trace| - 1]) +
      if trace[|trace| - 1].MessageDelta? then [trace[|trace| - 1]] else []
  }

  ghost predicate Tidy(s: Enc) {
    && Boundaries(s.out) == Alternating(2 * s.blockIdx + if s.blockOpen then 1 else 0)
    && (!s.blockOpen ==> s.blockType == "")
  }

  lemma Appended(trace: seq<Sse>, x: Sse)
    ensures Boundaries(trace + [x]) == Boundaries(trace) +
              (match x { case BlockStart(i, _) => [Starts(i)] case BlockStop(i) => [Stops(i)] case _ => [] })
    ensures MessageDeltas(trace + [x]) == MessageDeltas(trace) + if x.MessageDelta? then [x] else []
  {
    assert (trace + [x])[..|trace|] == trace;
  }

  lemma PutTidy(s: Enc, x: Sse)
    requires Tidy(s) && !x.BlockStart? && !x.BlockStop? && !x.MessageDelta?
    ensures Tidy(Put(s, x))
  {
  }

  lemma CloseTidy(s: Enc)
    requires Tidy(s)
    ensures Tidy(Close(s)) && !Close(s).blockOpen
  {
  }

  lemma OpenTidy(s: Enc, h: Header, blockType: string)
    requires Tidy(s) && !s.blockOpen
    ensures Tidy(Open(s, h, blockType))
  {
  }

  lemma EnsureBlockTidy(s: Enc, blockType: string)
    requires Tidy(s)
    ensures Tidy(EnsureBlock(s, blockType))
  {
    CloseTidy(s);
    OpenTidy(Close(s), if blockType == "text" then TextHeader else ThinkingHeader, blockType);
  }

  lemma StandaloneTidy(s: Enc, h: Header)
    requires Tidy(s)
    ensures Tidy(Standalone(s, h))
  {
    CloseTidy(s);
    OpenTidy(Close(s), h, "");
    CloseTidy(Open(Close(s), h, ""));
  }

  lemma EmitTidy(s: Enc)
    requires Tidy(s)
    ensures Tidy(EmitMessageDelta(s))
  {
  }

  lemma PieceTidy(s: Enc, blockType: string, d: Delta)
    requires Tidy(s)
    ensures var b := EnsureBlock(s, blockType); Tidy(b) && Tidy(Put(b, BlockDelta(b.blockIdx, d)))
  {
    EnsureBlockTidy(s, blockType);
    var b := EnsureBlock(s, blockType);
    hide Tidy, EnsureBlock;
    PutTidy(b, BlockDelta(b.blockIdx, d));
  }

  lemma ToolStartTidy(s: Enc, index: int, id: string, name: string)
    requires Tidy(s)
    ensures Tidy(StartToolCall(Close(s), index, id, name))
  {
    CloseTidy(s);
    var c := Close(s);
    hide Close;
    OpenTidy(c.(toolCallBlocks := c.toolCallBlocks[index := c.blockIdx]), ToolUseHeader(id, name), c.blockType);
  }

  lemma StopTidy(s: Enc, reason: string)
    requires Tidy(s)
    ensures Tidy(Dispatch(s, MessageStop(reason)))
  {
    CloseTidy(s);
    var c := Close(s).(stopReason := reason);
    assert Tidy(c);
    hide Tidy, Close;
    EmitTidy(c);
  }

  lemma DispatchTidy(s: Enc, body: EventBody)
    requires Tidy(s)
    ensures Tidy(Dispatch(s, body))
  {
    hide Tidy, Close, EnsureBlock, Standalone, StartToolCall, EmitMessageDelta;
    CloseTidy(s);
    match body
    case TextDelta(text) => PieceTidy(s, "text", TextPiece(text));
    case ThinkingDelta(text) => PieceTidy(s, "thinking", ThinkingPiece(text));
    case ThinkingSignature(signature) => PieceTidy(s, "thinking", SignaturePiece(signature));
    case ToolCallStart(index, id, name) => ToolStartTidy(s, index, id, name);
    case ToolCallDelta(index, arguments) => PutTidy(s, BlockDelta(Target(s, index), InputJsonPiece(arguments)));
    case ToolCallEnd =>
    case WebSearch(id, results) =>
      StandaloneTidy(Close(s), ServerToolUseHeader(id));
      StandaloneTidy(Standalone(Close(s), ServerToolUseHeader(id)), SearchResultHeader(id, results));
    case MessageStop(reason) => StopTidy(s, reason);
    case UsageFinal(_) => EmitTidy(s);
  }

  lemma StepTidy(s: Enc, ev: StreamEvent)
    requires Tidy(s)
    ensures Tidy(Step(s, ev))
  {
    var n := NoteUsage(s, ev);
    assert Tidy(n);
    PutTidy(n, MessageStart(ev.responseID, ev.model, Payload(n.usage)));
    DispatchTidy(StartMessage(n, ev), ev.body);
  }

  lemma InitTidy()
    ensures Tidy(Init)
  {
    assert Alternating(0) == [];
  }

  lemma {:induction false} RunTidy(s: Enc, events: seq<StreamEvent>)
    requires Tidy(s)
    ensures Tidy(Run(s, events))
    decreases |events|
  {
    if events != [] {
      StepTidy(s, events[0]);
      RunTidy(Step(s, events[0]), events[1..]);
    }
  }

  /** Same `message_delta` history and same fields for the next one. */
  ghost predicate Quiet(s: Enc, t: Enc) {
    && MessageDeltas(t.out) == MessageDeltas(s.out)
    && t.stopReason == s.stopReason && t.usage == s.usage && t.messageDeltaEmitted == s.messageDeltaEmitted
  }

  lemma PutQuiet(s: Enc, x: Sse)
    requires !x.MessageDelta?
    ensures Quiet(s, Put(s, x))
  {
    Appended(s.out, x);
  }

  lemma CloseQuiet(s: Enc)
    ensures Quiet(s, Close(s))
  {
    PutQuiet(s, BlockStop(s.blockIdx));
  }

  lemma OpenQuiet(s: Enc, h: Header, blockType: string)
    ensures Quiet(s, Open(s, h, blockType))
  {
    PutQuiet(s, BlockStart(s.blockIdx, h));
  }

  lemma EnsureQuiet(s: Enc, blockType: string)
    ensures Quiet(s, EnsureBlock(s, blockType))
  {
    CloseQuiet(s);
    OpenQuiet(Close(s), if blockType == "text" then TextHeader else ThinkingHeader, blockType);
  }

  lemma StandaloneQuiet(s: Enc, h: Header)
    ensures Quiet(s, Standalone(s, h))
  {
    CloseQuiet(s);
    OpenQuiet(Close(s), h, "");
    CloseQuiet(Open(Close(s), h, ""));
  }

  lemma PieceQuiet(s: Enc, blockType: string, d: Delta)
    ensures var b := EnsureBlock(s, blockType); Quiet(s, b) && Quiet(s, Put(b, BlockDelta(b.blockIdx, d)))
  {
    EnsureQuiet(s, blockType);
    var b := EnsureBlock(s, blockType);
    hide EnsureBlock, MessageDeltas;
    PutQuiet(b, BlockDelta(b.blockIdx, d));
  }

  lemma ToolStartQuiet(s: Enc, index: int, id: string, name: string)
    ensures Quiet(s, StartToolCall(Close(s), index, id, name))
  {
    CloseQuiet(s);
    var c := Close(s);
    hide Close, MessageDeltas;
    OpenQuiet(c.(toolCallBlocks := c.toolCallBlocks[index := c.blockIdx]), ToolUseHeader(id, name), c.blockType);
  }

  lemma SearchQuiet(s: Enc, id: string, results: seq<WebSearchResult>)
    ensures Quiet(s, Dispatch(s, WebSearch(id, results)))
  {
    CloseQuiet(s);
    hide Close, Standalone, MessageDeltas;
    StandaloneQuiet(Close(s), ServerToolUseHeader(id));
    StandaloneQuiet(Standalone(Close(s), ServerToolUseHeader(id)), SearchResultHeader(id, results));
  }

  lemma DispatchQuiet(s: Enc, body: EventBody)
    requires !body.MessageStop? && !body.UsageFinal?
    ensures Quiet(s, Dispatch(s, body))
  {
    hide Close, EnsureBlock, Standalone, StartToolCall, MessageDeltas;
    match body
    case TextDelta(text) => PieceQuiet(s, "text", TextPiece(text));
    case ThinkingDelta(text) => PieceQuiet(s, "thinking", ThinkingPiece(text));
    case ThinkingSignature(signature) => PieceQuiet(s, "thinking", SignaturePiece(signature));
    case ToolCallStart(index, id, name) => ToolStartQuiet(s, index, id, name);
    case ToolCallDelta(index, arguments) => PutQuiet(s, BlockDelta(Target(s, index), InputJsonPiece(arguments)));
    case ToolCallEnd => CloseQuiet(s);
    case WebSearch(id, results) => SearchQuiet(s, id, results);
  }

  lemma EmitAppends(s: Enc)
    ensures Boundaries(EmitMessageDelta(s).out) == Boundaries(s.out)
    ensures MessageDeltas(EmitMessageDelta(s).out) == MessageDeltas(s.out) +
              [MessageDelta(if s.stopReason == "" then "end_turn" else s.stopReason, Payload(s.usage))]
  {
    Appended(s.out, MessageDelta(if s.stopReason == "" then "end_turn" else s.stopReason, Payload(s.usage)));
  }

  lemma FinishTidy(s: Enc)
    requires Tidy(s)
    ensures Boundaries(Finish(s).out) == Alternating(2 * Finish(s).blockIdx)
  {
    CloseTidy(s);
    CloseQuiet(s);
    var c := Close(s);
    EmitAppends(c);
    var d := if !c.messageDeltaEmitted && (c.stopReason != "" || c.usage.Some?) then EmitMessageDelta(c) else c;
    Appended(d.out, MessageEnd);
  }

  /**
    Block bookkeeping for arbitrary event sequences: after any run the boundaries
    read start 0, stop 0, start 1, ...; `blockIdx` counts the stops, the last
    boundary is a start exactly when a block is open, and `Done` closes it.
   */
  lemma BlocksAlternate(events: seq<StreamEvent>)
    ensures var s := Run(Init, events);
            && Boundaries(s.out) == Alternating(2 * s.blockIdx + if s.blockOpen then 1 else 0)
            && (!s.blockOpen ==> s.blockType == "")
            && Boundaries(Finish(s).out) == Alternating(2 * Finish(s).blockIdx)
  {
    InitTidy();
    hide Run, Finish, Boundaries, Alternating;
    RunTidy(Init, events);
    FinishTidy(Run(Init, events));
  }

  // ----- message_delta -----

  function LatestStop(events: seq<StreamEvent>): string {
    if events == [] then ""
    else if events[|events| - 1].body.MessageStop? then events[|events| - 1].body.stopReason
    else LatestStop(events[..|events| - 1])
  }

  predicate ReportsUsage(ev: StreamEvent) {
    ev.body.UsageFinal? && ev.body.usage.Some?
  }

  predicate SawUsage(events: seq<StreamEvent>) {
    events != [] && (ReportsUsage(events[|events| - 1]) || SawUsage(events[..|events| - 1]))
  }

  /** The fields `message_delta` depends on, and when one event emits it. */
  ghost predicate DeltaStep(s: Enc, body: EventBody, t: Enc) {
    && t.stopReason == (if body.MessageStop? then body.stopReason else s.stopReason)
    && t.messageDeltaEmitted == (s.messageDeltaEmitted ||
                                 (body.MessageStop? && t.usage.Some?) ||
                                 (body.UsageFinal? && s.stopReason != ""))
    && MessageDeltas(t.out) == MessageDeltas(s.out) +
         if t.messageDeltaEmitted && !s.messageDeltaEmitted then
           [MessageDelta(if t.stopReason == "" then "end_turn" else t.stopReason, Payload(t.usage))]
         else []
  }

  lemma StopDelta(s: Enc, reason: string)
    ensures DeltaStep(s, MessageStop(reason), Dispatch(s, MessageStop(reason))) &&
            Dispatch(s, MessageStop(reason)).usage == s.usage
  {
    CloseQuiet(s);
    var c := Close(s).(stopReason := reason);
    hide Close, MessageDeltas, EmitMessageDelta, Payload;
    EmitsDelta(c);
  }

  lemma UsageDelta(s: Enc, usage: Option<Usage>)
    ensures DeltaStep(s, UsageFinal(usage), Dispatch(s, UsageFinal(usage))) &&
            Dispatch(s, UsageFinal(usage)).usage == s.usage
  {
    hide MessageDeltas, EmitMessageDelta, Payload;
    EmitsDelta(s);
  }

  lemma EmitsDelta(s: Enc)
    ensures var t := EmitMessageDelta(s);
            && t.stopReason == s.stopReason && t.usage == s.usage && t.messageDeltaEmitted
            && MessageDeltas(t.out) == MessageDeltas(s.out) +
                 [MessageDelta(if s.stopReason == "" then "end_turn" else s.stopReason, Payload(s.usage))]
  {
    EmitAppends(s);
    hide MessageDeltas;
  }

  lemma DispatchDelta(s: Enc, body: EventBody)
    ensures DeltaStep(s, body, Dispatch(s, body)) && Dispatch(s, body).usage == s.usage
  {
    hide Dispatch, MessageDeltas;
    match body {
      case MessageStop(reason) => StopDelta(s, reason);
      case UsageFinal(usage) => UsageDelta(s, usage);
      case _ => DispatchQuiet(s, body);
    }
  }

  lemma StepDelta(s: Enc, ev: StreamEvent)
    ensures DeltaStep(s, ev.body, Step(s, ev))
    ensures Step(s, ev).usage == if ReportsUsage(ev) then ev.body.usage else s.usage
  {
    var n := NoteUsage(s, ev);
    hide Dispatch, MessageDeltas, Payload;
    PutQuiet(n, MessageStart(ev.responseID, ev.model, Payload(n.usage)));
    DispatchDelta(StartMessage(n, ev), ev.body);
  }

  function LatestUsage(events: seq<StreamEvent>): Option<Usage> {
    if events == [] then None
    else if ReportsUsage(events[|events| - 1]) then events[|events| - 1].body.usage
    else LatestUsage(events[..|events| - 1])
  }

  /** The last event completes the pair: a stop after usage, or a usage event after a stop with a reason. */
  predicate Completes(events: seq<StreamEvent>) {
    && events != []
    && var n := |events| - 1;
       || (events[n].body.MessageStop? && SawUsage(events))
       || (events[n].body.UsageFinal? && LatestStop(events[..n]) != "")
  }

  predicate Completed(events: seq<StreamEvent>) {
    events != [] && (Completes(events) || Completed(events[..|events| - 1]))
  }

  /** The events up to the first that completes the pair; all of them if none does. */
  function Telling(events: seq<StreamEvent>): seq<StreamEvent> {
    if events != [] && Completed(events[..|events| - 1]) then Telling(events[..|events| - 1]) else events
  }

  function Told(events: seq<StreamEvent>): Sse {
    MessageDelta(if LatestStop(events) == "" then "end_turn" else LatestStop(events), Payload(LatestUsage(events)))
  }

  ghost predicate TellsOnce(s: Enc, events: seq<StreamEvent>) {
    && s.stopReason == LatestStop(events)
    && s.usage == LatestUsage(events)
    && s.messageDeltaEmitted == Completed(events)
    && MessageDeltas(s.out) == if Completed(events) then [Told(Telling(events))] else []
  }

  lemma {:induction false} RunTells(events: seq<StreamEvent>)
    ensures TellsOnce(Run(Init, events), events)
    ensures LatestUsage(events).Some? <==> SawUsage(events)
  {
    if events != [] {
      var rest, ev := events[..|events| - 1], events[|events| - 1];
      RunTells(rest);
      StepDelta(Run(Init, rest), ev);
      RunSnoc(Init, rest, ev);
      LastOf(events);
    }
  }

  lemma FinishTells(s: Enc)
    ensures MessageDeltas(Finish(s).out) == MessageDeltas(s.out) +
              if !s.messageDeltaEmitted && (s.stopReason != "" || s.usage.Some?) then
                [MessageDelta(if s.stopReason == "" then "end_turn" else s.stopReason, Payload(s.usage))]
              else []
  {
    CloseQuiet(s);
    var c := Close(s);
    EmitAppends(c);
    Appended(c.out, MessageEnd);
    Appended(EmitMessageDelta(c).out, MessageEnd);
  }

  /**
    `message_delta` is emitted at most once in any run, and by the time `Done` has run
    exactly once if and only if usage was reported, the latest stop has a reason, or a
    usage event (even an empty one) followed a stop with a reason. It says the stop
    reason and the usage known when the pair was first complete, or, if it never was,
    when `Done` ran.
   */
  lemma MessageDeltaOnce(events: seq<StreamEvent>)
    ensures |MessageDeltas(Run(Init, events).out)| <= 1
    ensures MessageDeltas(Finish(Run(Init, events)).out) ==
              if Completed(events) || SawUsage(events) || LatestStop(events) != "" then [Told(Telling(events))] else []
  {
    RunTells(events);
    if !Completed(events) {
      assert Telling(events) == events;
    }
    hide Run, Finish, Telling, MessageDeltas, LatestStop, LatestUsage, SawUsage, Completed, Payload;
    FinishTells(Run(Init, events));
  }

  /** Every stop has reason `reason` and every usage event reports `usage`. */
  predicate Unanimous(events: seq<StreamEvent>, reason: string, usage: Usage) {
    forall ev :: ev in events ==>
      && (ev.body.MessageStop? ==> ev.body.stopReason == reason)
      && (ev.body.UsageFinal? ==> ev.body.usage == Some(usage))
  }

  /** The client reads off the counts that were reported; cache counts stay absent if they were. */
  predicate Tells(p: UsagePayload, u: Usage) {
    && (u.input.Some? ==> p.inputTokens == u.input.value)
    && (u.output.Some? ==> p.outputTokens == u.output.value)
    && p.cacheRead == u.cacheRead && p.cacheCreation == u.cacheWrite
  }

  lemma {:induction false} UnanimousTelling(events: seq<StreamEvent>, reason: string, usage: Usage)
    requires reason != "" && Unanimous(events, reason, usage)
    ensures LatestStop(events) in ["", reason] && LatestUsage(events) in [None, Some(usage)]
    ensures Completed(events) ==> LatestStop(Telling(events)) == reason && LatestUsage(Telling(events)) == Some(usage)
    ensures SawUsage(events) && LatestStop(events) != "" ==> Completed(events)
    ensures SawUsage(events) <==> LatestUsage(events) == Some(usage)
  {
    if events != [] {
      var rest, ev := events[..|events| - 1], events[|events| - 1];
      assert ev in events;
      UnanimousTelling(rest, reason, usage);
    }
  }

  /**
    When stop and usage are each reported, once or repeatedly but unanimously, the
    one `message_delta` carries both values, whichever arrived first.
   */
  lemma MessageDeltaCarriesBoth(events: seq<StreamEvent>, reason: string, usage: Usage)
    requires reason != "" && Unanimous(events, reason, usage)
    requires SawUsage(events) && LatestStop(events) != ""
    ensures var ds := MessageDeltas(Finish(Run(Init, events)).out);
            |ds| == 1 && ds[0].MessageDelta? && ds[0].stopReason == reason && Tells(ds[0].usage, usage)
  {
    MessageDeltaOnce(events);
    UnanimousTelling(events, reason, usage);
  }
}
