/**
  The streamed and the aggregated answer agree: a client that reassembles the
  Anthropic stream holds the text, the thinking and the tool calls that
  `StreamAggregateState` holds after the same events.
 */
module Agreement {
  import opened Wrappers
  import opened Types
  import opened AnthropicEncoder
  import opened AnthropicClient
  import opened Aggregate

  /** The reassembled blocks are those started, and the encoder knows the kind of the open one. */
  ghost predicate Shape(s: Enc) {
    var bs := Blocks(s.out);
    && |bs| == s.blockIdx + (if s.blockOpen then 1 else 0)
    && (if s.blockOpen then s.blockType == TypeOf(bs[s.blockIdx].header) else s.blockType == "")
  }

  /** Same calls in the same order, leaving the argument strings aside. */
  ghost predicate SameCalls(tools: seq<ToolCall>, calls: seq<Call>) {
    && |tools| == |calls|
    && forall i :: 0 <= i < |calls| ==> tools[i].id == calls[i].id && tools[i].name == calls[i].name
  }

  ghost predicate SameArguments(tools: seq<ToolCall>, calls: seq<Call>)
    requires |tools| == |calls|
  {
    forall i :: 0 <= i < |calls| ==> tools[i].arguments == calls[i].arguments
  }

  /** The client has at least as many argument characters everywhere. */
  ghost predicate NoShorter(tools: seq<ToolCall>, calls: seq<Call>)
    requires |tools| == |calls|
  {
    forall i :: 0 <= i < |calls| ==> |calls[i].arguments| <= |tools[i].arguments|
  }

  ghost predicate Longer(tools: seq<ToolCall>, calls: seq<Call>)
    requires |tools| == |calls|
  {
    exists i :: 0 <= i < |calls| && |calls[i].arguments| < |tools[i].arguments|
  }

  /** The map lookup and the reverse scan pick the same call. */
  ghost predicate Routed(bs: seq<Block>, m: map<int, nat>, calls: seq<Call>) {
    forall k {:trigger k in m} {:trigger LastWith(calls, k)} ::
      && (k in m <==> LastWith(calls, k) >= 0)
      && (k in m ==> m[k] < |bs| && bs[m[k]].header.ToolUseHeader? && Rank(bs, m[k]) == LastWith(calls, k))
  }

  ghost predicate Matches(bs: seq<Block>, m: map<int, nat>, a: Agg) {
    && TextOf(bs) == Join(a.textParts)
    && ThinkingOf(bs) == Join(a.thinkingParts)
    && SameCalls(ToolsOf(bs), a.toolCalls)
    && Routed(bs, m, a.toolCalls)
  }

  ghost predicate Sim(s: Enc, a: Agg) {
    Shape(s) && Matches(Blocks(s.out), s.toolCallBlocks, a)
  }

  // ----- the reassembled blocks under each emission -----

  lemma RoutedLonger(bs: seq<Block>, m: map<int, nat>, calls: seq<Call>, b: Block)
    requires Routed(bs, m, calls)
    ensures Routed(bs + [b], m, calls)
  {
    forall k | k in m
      ensures Rank(bs + [b], m[k]) == Rank(bs, m[k])
    {
      assert (bs + [b])[..m[k]] == bs[..m[k]];
    }
  }

  lemma RoutedUpdated(bs: seq<Block>, m: map<int, nat>, calls: seq<Call>, i: nat, b: Block)
    requires Routed(bs, m, calls) && i < |bs| && b.header == bs[i].header
    ensures Routed(bs[i := b], m, calls)
  {
    forall k | k in m
      ensures Rank(bs[i := b], m[k]) == Rank(bs, m[k])
    {
      RankSame(bs[i := b], bs, m[k]);
    }
  }

  lemma PutSim(s: Enc, a: Agg, x: Sse)
    requires Sim(s, a) && !x.BlockStart? && !x.BlockDelta? && !x.BlockStop?
    ensures Sim(Put(s, x), a) && Blocks(Put(s, x).out) == Blocks(s.out)
  {
  }

  lemma CloseSim(s: Enc, a: Agg)
    requires Sim(s, a)
    ensures Sim(Close(s), a) && Blocks(Close(s).out) == Blocks(s.out) && !Close(s).blockOpen
  {
    BlocksPut(s.out, BlockStop(s.blockIdx));
  }

  /** Opening a block that is not a tool call, in a state with nothing open. */
  lemma OpenSim(s: Enc, a: Agg, h: Header)
    requires Sim(s, a) && !s.blockOpen && !h.ToolUseHeader?
    ensures var t := Open(s, h, TypeOf(h)); Sim(t, a) && ToolsOf(Blocks(t.out)) == ToolsOf(Blocks(s.out))
  {
    BlocksPut(s.out, BlockStart(s.blockIdx, h));
    ReadStart(Blocks(s.out), h);
    RoutedLonger(Blocks(s.out), s.toolCallBlocks, a.toolCalls, Block(h, "", "", "", ""));
  }

  lemma EnsureBlockSim(s: Enc, a: Agg, blockType: string)
    requires Sim(s, a) && (blockType == "text" || blockType == "thinking")
    ensures var t := EnsureBlock(s, blockType);
            && Sim(t, a) && t.blockOpen && t.blockType == blockType
            && ToolsOf(Blocks(t.out)) == ToolsOf(Blocks(s.out))
  {
    if !(s.blockOpen && s.blockType == blockType) {
      CloseSim(s, a);
      OpenSim(Close(s), a, if blockType == "text" then TextHeader else ThinkingHeader);
    }
  }

  lemma StandaloneSim(s: Enc, a: Agg, h: Header)
    requires Sim(s, a) && TypeOf(h) == "" && !h.ToolUseHeader?
    ensures Sim(Standalone(s, h), a)
    ensures ToolsOf(Blocks(Standalone(s, h).out)) == ToolsOf(Blocks(s.out)) && !Standalone(s, h).blockOpen
  {
    CloseSim(s, a);
    OpenSim(Close(s), a, h);
    CloseSim(Open(Close(s), h, ""), a);
  }

  /** The open block is the last, and a piece for it extends it. */
  lemma PieceShape(s: Enc, d: Delta)
    requires Shape(s) && s.blockOpen && !d.InputJsonPiece?
    requires s.blockType == if d.TextPiece? then "text" else "thinking"
    ensures var t, bs := Put(s, BlockDelta(s.blockIdx, d)), Blocks(s.out);
            && s.blockIdx == |bs| - 1
            && (if d.TextPiece? then bs[s.blockIdx].header.TextHeader? else bs[s.blockIdx].header.ThinkingHeader?)
            && Blocks(t.out) == bs[s.blockIdx := Extend(bs[s.blockIdx], d)]
            && Shape(t)
  {
    BlocksPut(s.out, BlockDelta(s.blockIdx, d));
    hide Blocks;
  }

  function PieceApplied(a: Agg, d: Delta): Agg {
    if d.TextPiece? then a.(textParts := a.textParts + [d.text])
    else if d.ThinkingPiece? then a.(thinkingParts := a.thinkingParts + [d.thinking])
    else a
  }

  lemma PieceJoined(a: Agg, d: Delta)
    requires !d.InputJsonPiece?
    ensures Join(PieceApplied(a, d).textParts) == Join(a.textParts) + if d.TextPiece? then d.text else ""
    ensures Join(PieceApplied(a, d).thinkingParts) ==
            Join(a.thinkingParts) + if d.ThinkingPiece? then d.thinking else ""
  {
    if d.TextPiece? { JoinSnoc(a.textParts, d.text); }
    if d.ThinkingPiece? { JoinSnoc(a.thinkingParts, d.thinking); }
    hide Join;
    Unit(Join(a.textParts));
    Unit(Join(a.thinkingParts));
  }

  /** A text, thinking or signature piece for the open block. */
  lemma PieceSim(s: Enc, a: Agg, d: Delta)
    requires Sim(s, a) && s.blockOpen && !d.InputJsonPiece?
    requires s.blockType == if d.TextPiece? then "text" else "thinking"
    ensures var t := Put(s, BlockDelta(s.blockIdx, d));
            Sim(t, PieceApplied(a, d)) && ToolsOf(Blocks(t.out)) == ToolsOf(Blocks(s.out))
  {
    hide Shape, Blocks, TextOf, ThinkingOf, ToolsOf, Join, Routed;
    var bs := Blocks(s.out);
    PieceShape(s, d);
    ReadPiece(bs, d);
    RoutedUpdated(bs, s.toolCallBlocks, a.toolCalls, s.blockIdx, Extend(bs[s.blockIdx], d));
    PieceJoined(a, d);
  }

  /** A started call is routed to its new block. */
  lemma RoutedStart(bs: seq<Block>, m: map<int, nat>, calls: seq<Call>, index: int, id: string, name: string)
    requires Routed(bs, m, calls) && |ToolsOf(bs)| == |calls|
    ensures Routed(bs + [Block(ToolUseHeader(id, name), "", "", "", "")], m[index := |bs|],
            calls + [Call(index, id, name, "")])
  {
    var b, more := Block(ToolUseHeader(id, name), "", "", "", ""), calls + [Call(index, id, name, "")];
    RoutedLonger(bs, m, calls, b);
    assert more[..|calls|] == calls;
    assert (bs + [b])[..|bs|] == bs;
    hide ToolsOf;
  }

  lemma ToolStartSim(s: Enc, a: Agg, index: int, id: string, name: string)
    requires Sim(s, a) && !s.blockOpen
    ensures var t := StartToolCall(s, index, id, name);
            && Sim(t, Accumulate(a, ToolCallStart(index, id, name)))
            && ToolsOf(Blocks(t.out)) == ToolsOf(Blocks(s.out)) + [ToolCall(id, name, "")]
  {
    hide Blocks, TextOf, ThinkingOf, ToolsOf, Join, Routed;
    var bs, h := Blocks(s.out), ToolUseHeader(id, name);
    BlocksPut(s.out, BlockStart(s.blockIdx, h));
    ReadStart(bs, h);
    RoutedStart(bs, s.toolCallBlocks, a.toolCalls, index, id, name);
  }

  /** The tool list after a delta for `index`: what its target block received. */
  function LandedOn(tools: seq<ToolCall>, r: int, arguments: string): seq<ToolCall> {
    if 0 <= r < |tools| then tools[r := tools[r].(arguments := tools[r].arguments + arguments)] else tools
  }

  /** Where a tool delta lands among the tool calls: the scanned call, else the open tool call, else nowhere. */
  ghost function Landing(s: Enc, a: Agg, index: int): int {
    var bs := Blocks(s.out);
    if LastWith(a.toolCalls, index) >= 0 then LastWith(a.toolCalls, index)
    else if s.blockOpen && s.blockIdx < |bs| && bs[s.blockIdx].header.ToolUseHeader? then |ToolsOf(bs)| - 1
    else -1
  }

  lemma LastWithUpdated(calls: seq<Call>, i: nat, c: Call, index: int)
    requires i < |calls| && c.index == calls[i].index
    ensures LastWith(calls[i := c], index) == LastWith(calls, index)
  {
    var r, r' := LastWith(calls, index), LastWith(calls[i := c], index);
    assert forall k :: 0 <= k < |calls| ==> calls[i := c][k].index == calls[k].index;
    assert r >= 0 ==> calls[i := c][r].index == index;
    assert r' >= 0 ==> calls[r'].index == index;
  }

  /** Longer arguments leave every call where it is found. */
  lemma LastWithSame(calls: seq<Call>, i: nat, arguments: string)
    requires i < |calls|
    ensures forall k :: LastWith(calls[i := calls[i].(arguments := arguments)], k) == LastWith(calls, k)
  {
    forall k ensures LastWith(calls[i := calls[i].(arguments := arguments)], k) == LastWith(calls, k) {
      LastWithUpdated(calls, i, calls[i].(arguments := arguments), k);
    }
  }

  lemma LastRank(bs: seq<Block>)
    requires bs != [] && bs[|bs| - 1].header.ToolUseHeader?
    ensures Rank(bs, |bs| - 1) == |ToolsOf(bs)| - 1
  {
  }

  /** What the client's tool list becomes when a delta reaches block `i`. */
  lemma DeltaLands(s: Enc, a: Agg, index: int, arguments: string)
    requires Sim(s, a) && Target(s, index) < |Blocks(s.out)|
    ensures var bs, i := Blocks(s.out), Target(s, index);
            ToolsOf(bs[i := Extend(bs[i], InputJsonPiece(arguments))]) ==
                LandedOn(ToolsOf(bs), Landing(s, a, index), arguments)
  {
    hide TextOf, ThinkingOf, ToolsOf, Join, LastWith, Blocks, Rank;
    var bs, i := Blocks(s.out), Target(s, index);
    assert index in s.toolCallBlocks <==> LastWith(a.toolCalls, index) >= 0;
    ReadArguments(bs, i, arguments);
    if index !in s.toolCallBlocks && bs[i].header.ToolUseHeader? {
      LastRank(bs);
    }
  }

  /** The client's side of a tool delta: only the tool list changes, at the landing place. */
  lemma DeltaReceived(s: Enc, a: Agg, index: int, arguments: string)
    requires Sim(s, a)
    ensures var t := Put(s, BlockDelta(Target(s, index), InputJsonPiece(arguments)));
            && Shape(t)
            && TextOf(Blocks(t.out)) == TextOf(Blocks(s.out))
            && ThinkingOf(Blocks(t.out)) == ThinkingOf(Blocks(s.out))
            && ToolsOf(Blocks(t.out)) == LandedOn(ToolsOf(Blocks(s.out)), Landing(s, a, index), arguments)
            && Routed(Blocks(t.out), s.toolCallBlocks, a.toolCalls)
  {
    hide TextOf, ThinkingOf, ToolsOf, Join, LastWith, Blocks, Rank;
    var bs, i := Blocks(s.out), Target(s, index);
    BlocksPut(s.out, BlockDelta(i, InputJsonPiece(arguments)));
    if i < |bs| {
      DeltaLands(s, a, index, arguments);
      ReadArguments(bs, i, arguments);
      RoutedUpdated(bs, s.toolCallBlocks, a.toolCalls, i, Extend(bs[i], InputJsonPiece(arguments)));
    }
  }

  lemma RoutedArguments(bs: seq<Block>, m: map<int, nat>, calls: seq<Call>, i: nat, arguments: string)
    requires Routed(bs, m, calls) && i < |calls|
    ensures Routed(bs, m, calls[i := calls[i].(arguments := arguments)])
  {
    LastWithSame(calls, i, arguments);
    hide LastWith, Rank;
  }

  lemma ToolDeltaSim(s: Enc, a: Agg, index: int, arguments: string)
    requires Sim(s, a)
    ensures var t := Put(s, BlockDelta(Target(s, index), InputJsonPiece(arguments)));
            && Sim(t, Accumulate(a, ToolCallDelta(index, arguments)))
            && ToolsOf(Blocks(t.out)) == LandedOn(ToolsOf(Blocks(s.out)), Landing(s, a, index), arguments)
  {
    hide TextOf, ThinkingOf, ToolsOf, Join, LastWith, Blocks, Rank, Shape, Routed;
    DeltaReceived(s, a, index, arguments);
    var j := LastWith(a.toolCalls, index);
    if j >= 0 {
      var t := Put(s, BlockDelta(Target(s, index), InputJsonPiece(arguments)));
      RoutedArguments(Blocks(t.out), s.toolCallBlocks, a.toolCalls, j, a.toolCalls[j].arguments + arguments);
    }
  }

  // ----- one event -----

  ghost predicate ToolOpen(s: Enc)
    requires Shape(s)
  {
    s.blockOpen && Blocks(s.out)[s.blockIdx].header.ToolUseHeader?
  }

  /** The client's tool calls after one event. */
  ghost function ToolsAfter(s: Enc, a: Agg, body: EventBody): seq<ToolCall> {
    match body
    case ToolCallStart(_, id, name) => ToolsOf(Blocks(s.out)) + [ToolCall(id, name, "")]
    case ToolCallDelta(index, arguments) => LandedOn(ToolsOf(Blocks(s.out)), Landing(s, a, index), arguments)
    case _ => ToolsOf(Blocks(s.out))
  }

  /** Whether a tool call's block is open after an event. */
  predicate OpenAfter(toolOpen: bool, body: EventBody) {
    match body
    case TextDelta(text) => text == "" && toolOpen
    case ToolCallStart(_, _, _) => true
    case ToolCallDelta(_, _) => toolOpen
    case UsageFinal(_) => toolOpen
    case _ => false
  }

  /** Stop reason, usage and identity play no part in the relation. */
  lemma SimIgnores(s: Enc, s': Enc, a: Agg, a': Agg)
    requires Sim(s, a)
    requires s'.out == s.out && s'.blockIdx == s.blockIdx && s'.blockOpen == s.blockOpen
    requires s'.blockType == s.blockType && s'.toolCallBlocks == s.toolCallBlocks
    requires a'.textParts == a.textParts && a'.thinkingParts == a.thinkingParts && a'.toolCalls == a.toolCalls
    ensures Sim(s', a')
  {
  }

  ghost predicate Lockstep(s: Enc, a: Agg, body: EventBody, t: Enc)
    requires Sim(s, a)
  {
    && Sim(t, Accumulate(a, body))
    && ToolsOf(Blocks(t.out)) == ToolsAfter(s, a, body)
    && ToolOpen(t) == OpenAfter(ToolOpen(s), body)
  }

  lemma PieceLockstep(s: Enc, a: Agg, body: EventBody)
    requires Sim(s, a) && (body.TextDelta? || body.ThinkingDelta? || body.ThinkingSignature?)
    ensures Lockstep(s, a, body, Dispatch(s, body))
  {
    hide Matches, Blocks, ToolsOf, EnsureBlock;
    match body
    case TextDelta(text) =>
      if text != "" {
        EnsureBlockSim(s, a, "text");
        PieceSim(EnsureBlock(s, "text"), a, TextPiece(text));
      }
    case ThinkingDelta(text) =>
      EnsureBlockSim(s, a, "thinking");
      PieceSim(EnsureBlock(s, "thinking"), a, ThinkingPiece(text));
    case ThinkingSignature(signature) =>
      EnsureBlockSim(s, a, "thinking");
      if signature != "" {
        PieceSim(EnsureBlock(s, "thinking"), a, SignaturePiece(signature));
      }
  }

  lemma StopLockstep(s: Enc, a: Agg, reason: string)
    requires Sim(s, a)
    ensures Lockstep(s, a, MessageStop(reason), Dispatch(s, MessageStop(reason)))
  {
    hide Matches, Blocks, ToolsOf, EmitMessageDelta, Close;
    CloseSim(s, a);
    var c, a' := Close(s).(stopReason := reason), a.(stopReason := reason);
    SimIgnores(Close(s), c, a, a');
    EmitSim(c, a');
  }

  lemma UsageLockstep(s: Enc, a: Agg, usage: Option<Usage>)
    requires Sim(s, a)
    ensures Lockstep(s, a, UsageFinal(usage), Dispatch(s, UsageFinal(usage)))
  {
    hide Matches, Blocks, ToolsOf, EmitMessageDelta, MergeUsage;
    var a' := Accumulate(a, UsageFinal(usage));
    SimIgnores(s, s, a, a');
    EmitSim(s, a');
  }

  lemma EmitSim(s: Enc, a: Agg)
    requires Sim(s, a)
    ensures var t := EmitMessageDelta(s);
            Sim(t, a) && Blocks(t.out) == Blocks(s.out) && t.blockOpen == s.blockOpen && t.blockIdx == s.blockIdx
  {
    hide Matches, Blocks;
    var x := EmitMessageDelta(s).out[|s.out|];
    PutSim(s, a, x);
    SimIgnores(Put(s, x), EmitMessageDelta(s), a, a);
  }

  lemma BlockLockstep(s: Enc, a: Agg, body: EventBody)
    requires Sim(s, a) && (body.ToolCallStart? || body.ToolCallDelta? || body.ToolCallEnd? || body.WebSearch?)
    ensures Lockstep(s, a, body, Dispatch(s, body))
  {
    hide Matches, Blocks, ToolsOf, Standalone, StartToolCall, Close;
    match body
    case ToolCallStart(index, id, name) =>
      CloseSim(s, a);
      ToolStartSim(Close(s), a, index, id, name);
      ToolBlockOpen(Close(s), index, id, name);
    case ToolCallDelta(index, arguments) =>
      ToolDeltaSim(s, a, index, arguments);
      DeltaKeepsHeaders(s, a, index, arguments);
    case ToolCallEnd => CloseSim(s, a);
    case WebSearch(id, results) =>
      CloseSim(s, a);
      StandaloneSim(Close(s), a, ServerToolUseHeader(id));
      StandaloneSim(Standalone(Close(s), ServerToolUseHeader(id)), a, SearchResultHeader(id, results));
  }

  lemma DispatchSim(s: Enc, a: Agg, body: EventBody)
    requires Sim(s, a)
    ensures Lockstep(s, a, body, Dispatch(s, body))
  {
    hide Sim, Dispatch, Lockstep;
    if body.TextDelta? || body.ThinkingDelta? || body.ThinkingSignature? {
      PieceLockstep(s, a, body);
    } else if body.MessageStop? {
      StopLockstep(s, a, body.stopReason);
    } else if body.UsageFinal? {
      UsageLockstep(s, a, body.usage);
    } else {
      BlockLockstep(s, a, body);
    }
  }

  lemma ToolBlockOpen(s: Enc, index: int, id: string, name: string)
    requires Shape(s) && !s.blockOpen
    ensures var t := StartToolCall(s, index, id, name); Shape(t) && ToolOpen(t)
  {
  }

  lemma DeltaKeepsHeaders(s: Enc, a: Agg, index: int, arguments: string)
    requires Sim(s, a)
    ensures var t := Put(s, BlockDelta(Target(s, index), InputJsonPiece(arguments)));
            Shape(t) && ToolOpen(t) == ToolOpen(s)
  {
    BlocksPut(s.out, BlockDelta(Target(s, index), InputJsonPiece(arguments)));
  }

  /** Usage, `message_start` and identity come before the event proper and do not touch blocks. */
  lemma StartSim(s: Enc, a: Agg, ev: StreamEvent)
    requires Sim(s, a)
    ensures var m := StartMessage(NoteUsage(s, ev), ev);
            && Sim(m, Identify(a, ev))
            && Blocks(m.out) == Blocks(s.out) && m.blockOpen == s.blockOpen && m.blockIdx == s.blockIdx
            && m.toolCallBlocks == s.toolCallBlocks
  {
    hide Matches, Blocks, Payload;
    var n, a' := NoteUsage(s, ev), Identify(a, ev);
    var x := MessageStart(ev.responseID, ev.model, Payload(n.usage));
    SimIgnores(s, n, a, a');
    PutSim(n, a', x);
    SimIgnores(Put(n, x), Put(n, x).(messageStarted := true), a', a');
  }

  lemma StepSim(s: Enc, a: Agg, ev: StreamEvent)
    requires Sim(s, a)
    ensures var t := Step(s, ev);
            && Sim(t, Apply(a, ev))
            && ToolsOf(Blocks(t.out)) == ToolsAfter(s, a, ev.body)
            && ToolOpen(t) == OpenAfter(ToolOpen(s), ev.body)
  {
    hide Dispatch, Blocks, Matches, ToolsOf, StartMessage, NoteUsage, Accumulate, OpenAfter, LandedOn, LastWith;
    StartSim(s, a, ev);
    DispatchSim(StartMessage(NoteUsage(s, ev), ev), Identify(a, ev), ev.body);
  }

  // ----- whole runs -----

  function StartedAfter(started: set<int>, body: EventBody): set<int> {
    if body.ToolCallStart? then started + {body.index} else started
  }

  /**
    No tool delta with arguments arrives for a call that was never started while
    the block of another tool call is open.
   */
  predicate StrayFree(events: seq<StreamEvent>, started: set<int>, toolOpen: bool)
    decreases |events|
  {
    events != [] ==>
      var body := events[0].body;
      && !Stray(body, started, toolOpen)
      && StrayFree(events[1..], StartedAfter(started, body), OpenAfter(toolOpen, body))
  }

  ghost predicate StartedIs(started: set<int>, a: Agg) {
    forall k :: k in started <==> LastWith(a.toolCalls, k) >= 0
  }

  lemma StartedStep(started: set<int>, a: Agg, ev: StreamEvent)
    requires StartedIs(started, a)
    ensures StartedIs(StartedAfter(started, ev.body), Apply(a, ev))
  {
    var calls := a.toolCalls;
    match ev.body {
      case ToolCallStart(index, id, name) =>
        assert (calls + [Call(index, id, name, "")])[..|calls|] == calls;
      case ToolCallDelta(index, arguments) =>
        var j := LastWith(calls, index);
        if j >= 0 { LastWithSame(calls, j, calls[j].arguments + arguments); }
        hide LastWith;
      case _ =>
        hide LastWith;
    }
  }

  /** How far the client is ahead never shrinks, and new calls start level. */
  ghost predicate Ahead(tools: seq<ToolCall>, calls: seq<Call>, tools': seq<ToolCall>, calls': seq<Call>)
    requires |tools| == |calls|
  {
    && |tools'| == |calls'| && |calls| <= |calls'|
    && (forall i :: 0 <= i < |calls| ==>
          |tools'[i].arguments| - |calls'[i].arguments| >= |tools[i].arguments| - |calls[i].arguments|)
    && (forall i :: |calls| <= i < |calls'| ==> tools'[i].arguments == calls'[i].arguments)
  }

  lemma StepAhead(s: Enc, a: Agg, body: EventBody)
    requires Sim(s, a)
    ensures Ahead(ToolsOf(Blocks(s.out)), a.toolCalls, ToolsAfter(s, a, body), Accumulate(a, body).toolCalls)
  {
    hide Shape, Blocks, ToolsOf, Routed, TextOf, ThinkingOf, Join, LastWith;
  }

  lemma StillLonger(tools: seq<ToolCall>, calls: seq<Call>, tools': seq<ToolCall>, calls': seq<Call>)
    requires |tools| == |calls| && Ahead(tools, calls, tools', calls')
    requires NoShorter(tools, calls) && Longer(tools, calls)
    ensures NoShorter(tools', calls') && Longer(tools', calls')
  {
  }

  /** Once longer somewhere and shorter nowhere, always so. */
  lemma StepLonger(s: Enc, a: Agg, ev: StreamEvent)
    requires Sim(s, a)
    requires NoShorter(ToolsOf(Blocks(s.out)), a.toolCalls) && Longer(ToolsOf(Blocks(s.out)), a.toolCalls)
    ensures var t, b := Step(s, ev), Apply(a, ev);
            && Sim(t, b)
            && NoShorter(ToolsOf(Blocks(t.out)), b.toolCalls)
            && Longer(ToolsOf(Blocks(t.out)), b.toolCalls)
  {
    assert |ToolsOf(Blocks(s.out))| == |a.toolCalls|;
    hide Step, Sim, Apply, Accumulate, ToolsAfter, Blocks, ToolsOf, NoShorter, Longer, Ahead, OpenAfter;
    StepSim(s, a, ev);
    StepAhead(s, a, ev.body);
    SameTools(a, ev);
    StillLonger(ToolsOf(Blocks(s.out)), a.toolCalls, ToolsAfter(s, a, ev.body), Apply(a, ev).toolCalls);
  }

  lemma {:induction false} RunLonger(s: Enc, a: Agg, events: seq<StreamEvent>)
    requires Sim(s, a)
    requires NoShorter(ToolsOf(Blocks(s.out)), a.toolCalls) && Longer(ToolsOf(Blocks(s.out)), a.toolCalls)
    ensures Sim(Run(s, events), ApplyAll(a, events))
    ensures NoShorter(ToolsOf(Blocks(Run(s, events).out)), ApplyAll(a, events).toolCalls)
    ensures Longer(ToolsOf(Blocks(Run(s, events).out)), ApplyAll(a, events).toolCalls)
    decreases |events|
  {
    hide Step, Apply, Shape, Blocks, ToolsOf, Routed, TextOf, ThinkingOf, Join, NoShorter, Longer;
    if events != [] {
      StepLonger(s, a, events[0]);
      RunLonger(Step(s, events[0]), Apply(a, events[0]), events[1..]);
    }
  }

  predicate Stray(body: EventBody, started: set<int>, toolOpen: bool) {
    body.ToolCallDelta? && body.index !in started && toolOpen && body.arguments != ""
  }

  lemma NoStrayKeepsArguments(s: Enc, a: Agg, body: EventBody, started: set<int>)
    requires Sim(s, a) && StartedIs(started, a) && !Stray(body, started, ToolOpen(s))
    requires SameArguments(ToolsOf(Blocks(s.out)), a.toolCalls)
    ensures var tools, calls := ToolsAfter(s, a, body), Accumulate(a, body).toolCalls;
            |tools| == |calls| && SameArguments(tools, calls)
  {
    hide Shape, Blocks, ToolsOf, Routed, TextOf, ThinkingOf, Join, LastWith;
  }

  /** An event that is no stray delta keeps the argument strings equal; a stray one makes the client's longer. */
  lemma StepArguments(s: Enc, a: Agg, ev: StreamEvent, started: set<int>)
    requires Sim(s, a) && StartedIs(started, a)
    requires SameArguments(ToolsOf(Blocks(s.out)), a.toolCalls)
    ensures var t, b := Step(s, ev), Apply(a, ev);
            && Sim(t, b)
            && StartedIs(StartedAfter(started, ev.body), b)
            && ToolOpen(t) == OpenAfter(ToolOpen(s), ev.body)
            && if Stray(ev.body, started, ToolOpen(s)) then
                 NoShorter(ToolsOf(Blocks(t.out)), b.toolCalls) && Longer(ToolsOf(Blocks(t.out)), b.toolCalls)
               else SameArguments(ToolsOf(Blocks(t.out)), b.toolCalls)
  {
    hide Step, Matches, Apply, Accumulate, Blocks, ToolsOf, ToolsAfter, LastWith, StartedIs, NoShorter, Longer,
      SameArguments, OpenAfter;
    StepSim(s, a, ev);
    StartedStep(started, a, ev);
    SameTools(a, ev);
    if Stray(ev.body, started, ToolOpen(s)) {
      StrayKeepsCalls(s, a, ev.body, started);
    } else {
      NoStrayKeepsArguments(s, a, ev.body, started);
    }
  }

  lemma SameTools(a: Agg, ev: StreamEvent)
    ensures Accumulate(a, ev.body).toolCalls == Apply(a, ev).toolCalls
  {
  }

  lemma StrayKeepsCalls(s: Enc, a: Agg, body: EventBody, started: set<int>)
    requires Sim(s, a) && StartedIs(started, a) && Stray(body, started, ToolOpen(s))
    requires SameArguments(ToolsOf(Blocks(s.out)), a.toolCalls)
    ensures var tools, calls := ToolsAfter(s, a, body), Accumulate(a, body).toolCalls;
            |tools| == |calls| && NoShorter(tools, calls) && Longer(tools, calls)
  {
    assert LastWith(a.toolCalls, body.index) < 0;
    hide Matches, Blocks, ToolsOf, ToolsAfter, LastWith, NoShorter, Longer, SameArguments;
    StrayDelta(s, a, body.index, body.arguments);
  }

  lemma {:induction false} RunSim(s: Enc, a: Agg, events: seq<StreamEvent>, started: set<int>)
    requires Sim(s, a) && StartedIs(started, a)
    requires SameArguments(ToolsOf(Blocks(s.out)), a.toolCalls)
    ensures Sim(Run(s, events), ApplyAll(a, events))
    ensures SameArguments(ToolsOf(Blocks(Run(s, events).out)), ApplyAll(a, events).toolCalls) <==>
            StrayFree(events, started, ToolOpen(s))
    ensures NoShorter(ToolsOf(Blocks(Run(s, events).out)), ApplyAll(a, events).toolCalls)
    decreases |events|
  {
    if events != [] {
      var s', a' := Step(s, events[0]), Apply(a, events[0]);
      StepArguments(s, a, events[0], started);
      hide Step, Apply, Shape, Blocks, ToolsOf, Routed, TextOf, ThinkingOf, Join, OpenAfter, StartedAfter, NoShorter;
      if Stray(events[0].body, started, ToolOpen(s)) {
        RunLonger(s', a', events[1..]);
      } else {
        RunSim(s', a', events[1..], StartedAfter(started, events[0].body));
      }
    }
  }

  /** A stray delta while a tool call is open lengthens that call for the client only. */
  lemma StrayDelta(s: Enc, a: Agg, index: int, arguments: string)
    requires Sim(s, a) && ToolOpen(s) && LastWith(a.toolCalls, index) < 0 && arguments != ""
    requires SameArguments(ToolsOf(Blocks(s.out)), a.toolCalls)
    ensures var tools := ToolsAfter(s, a, ToolCallDelta(index, arguments));
            |tools| == |a.toolCalls| && NoShorter(tools, a.toolCalls) && Longer(tools, a.toolCalls)
  {
    var bs := Blocks(s.out);
    ReadArguments(bs, s.blockIdx, arguments);
    assert bs[..s.blockIdx] == bs[..|bs| - 1];
    var r := |ToolsOf(bs)| - 1;
    var tools := ToolsAfter(s, a, ToolCallDelta(index, arguments));
    assert tools == ToolsOf(bs)[r := ToolsOf(bs)[r].(arguments := ToolsOf(bs)[r].arguments + arguments)];
    assert |a.toolCalls[r].arguments| < |tools[r].arguments|;
  }

  lemma InitSim()
    ensures Sim(Init, Empty) && Blocks(Init.out) == []
  {
  }

  lemma FinishSim(s: Enc, a: Agg)
    requires Sim(s, a)
    ensures Sim(Finish(s), a) && Blocks(Finish(s).out) == Blocks(s.out)
  {
    CloseSim(s, a);
    var c := Close(s);
    PutSim(c, a, MessageDelta(if c.stopReason == "" then "end_turn" else c.stopReason, Payload(c.usage)));
    var d := if !c.messageDeltaEmitted && (c.stopReason != "" || c.usage.Some?) then EmitMessageDelta(c) else c;
    PutSim(d, a, MessageEnd);
  }

  /**
    For every event sequence the client's text, thinking and list of (id, name)
    calls are the aggregator's; the argument strings are too exactly when no stray
    delta lands in another call's open block, and are nowhere shorter in any case.
    `Done` adds nothing to what is read, so this holds of a stream that breaks off too.
   */
  lemma StreamedEqualsAggregated(events: seq<StreamEvent>)
    ensures Blocks(Finish(Run(Init, events)).out) == Blocks(Run(Init, events).out)
    ensures var seen, a := Blocks(Run(Init, events).out), ApplyAll(Empty, events);
            && TextOf(seen) == Join(a.textParts)
            && ThinkingOf(seen) == Join(a.thinkingParts)
            && SameCalls(ToolsOf(seen), a.toolCalls)
            && (SameArguments(ToolsOf(seen), a.toolCalls) <==> StrayFree(events, {}, false))
            && NoShorter(ToolsOf(seen), a.toolCalls)
  {
    InitSim();
    RunSim(Init, Empty, events, {});
    FinishSim(Run(Init, events), ApplyAll(Empty, events));
  }

  /** Every tool delta's index was started earlier; calls may interleave freely. */
  predicate StartedFirst(events: seq<StreamEvent>, started: set<int>)
    decreases |events|
  {
    events != [] ==>
      && (events[0].body.ToolCallDelta? ==> events[0].body.index in started)
      && StartedFirst(events[1..], StartedAfter(started, events[0].body))
  }

  lemma {:induction false} StartedFirstIsStrayFree(events: seq<StreamEvent>, started: set<int>, toolOpen: bool)
    requires StartedFirst(events, started)
    ensures StrayFree(events, started, toolOpen)
    decreases |events|
  {
    if events != [] {
      StartedFirstIsStrayFree(events[1..], StartedAfter(started, events[0].body), OpenAfter(toolOpen, events[0].body));
    }
  }

  /** The tool calls of the two answers are identical when every delta follows a start, even interleaved. */
  lemma InterleavedCallsAgree(events: seq<StreamEvent>)
    requires StartedFirst(events, {})
    ensures var tools, calls := ToolsOf(Blocks(Run(Init, events).out)), ApplyAll(Empty, events).toolCalls;
            tools ==
            seq(|calls|, i requires 0 <= i < |calls| => ToolCall(calls[i].id, calls[i].name, calls[i].arguments))
  {
    StreamedEqualsAggregated(events);
    StartedFirstIsStrayFree(events, {}, false);
  }

  // ----- the tool-index map -----

  /**
    In every reachable state the map covers exactly the started call indices; each
    entry is the block of the latest start for its index, never lies beyond the open
    block, is a tool_use block and belongs to one call index only.
   */
  lemma ToolMapNamesLatestStart(events: seq<StreamEvent>)
    ensures var s := Run(Init, events);
            var m, bs, calls := s.toolCallBlocks, Blocks(s.out), ApplyAll(Empty, events).toolCalls;
            && |bs| == s.blockIdx + (if s.blockOpen then 1 else 0)
            && (forall k :: k in m <==> exists i :: 0 <= i < |calls| && calls[i].index == k)
            && (forall k :: k in m ==>
                  && m[k] < |bs|
                  && bs[m[k]].header.ToolUseHeader?
                  && 0 <= LastWith(calls, k)
                  && Rank(bs, m[k]) == LastWith(calls, k)
                  && bs[m[k]].header == ToolUseHeader(calls[LastWith(calls, k)].id, calls[LastWith(calls, k)].name))
            && (forall j, k :: j in m && k in m && j != k ==> m[j] != m[k])
  {
    InitSim();
    RunSim(Init, Empty, events, {});
    var s := Run(Init, events);
    var bs, calls := Blocks(s.out), ApplyAll(Empty, events).toolCalls;
    forall k | k in s.toolCallBlocks
      ensures bs[s.toolCallBlocks[k]].header ==
              ToolUseHeader(calls[LastWith(calls, k)].id, calls[LastWith(calls, k)].name)
    {
      RankNames(bs, s.toolCallBlocks[k]);
    }
  }

  lemma {:induction false} RankNames(bs: seq<Block>, i: nat)
    requires i < |bs| && bs[i].header.ToolUseHeader?
    ensures var r := Rank(bs, i);
            && r < |ToolsOf(bs)|
            && bs[i].header == ToolUseHeader(ToolsOf(bs)[r].id, ToolsOf(bs)[r].name)
  {
    var n := |bs| - 1;
    if i < n {
      RankNames(bs[..n], i);
      assert bs[..n][..i] == bs[..i];
    }
  }
}
