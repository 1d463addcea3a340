/**
  Web-search injection is a pure insertion: the relayed stream is the plain one
  with two complete blocks put before the first text block and every later index
  moved up by two.
 */
module SearchInjection {
  import opened Types
  import opened AnthropicEncoder
  import opened WebSearch
  import opened OpenAIStream
  import opened AnthropicRelay

  // ----- before the injection: no text block yet -----

  ghost predicate MapBelow(e: Enc) {
    forall k :: k in e.toolCallBlocks ==> e.toolCallBlocks[k] < e.blockIdx + if e.blockOpen then 1 else 0
  }

  ghost predicate Untouched(e: Enc) {
    && FirstText(e.out) == |e.out|
    && !(e.blockOpen && e.blockType == "text")
    && (!e.blockOpen ==> e.blockType == "")
    && MapBelow(e)
  }

  lemma FirstTextPut(trace: seq<Sse>, x: Sse)
    ensures FirstText(trace + [x]) ==
              if FirstText(trace) < |trace| then FirstText(trace) else if StartsText(x) then |trace| else |trace| + 1
  {
  }

  lemma {:induction false} FirstTextStays(trace: seq<Sse>, more: seq<Sse>)
    requires FirstText(trace) < |trace|
    ensures FirstText(trace + more) == FirstText(trace)
  {
    if more == [] {
      assert trace + more == trace;
    } else {
      var n := |more| - 1;
      FirstTextStays(trace, more[..n]);
      assert trace + more == (trace + more[..n]) + [more[n]];
      FirstTextPut(trace + more[..n], more[n]);
    }
  }

  lemma PutUntouched(e: Enc, x: Sse)
    requires Untouched(e) && !StartsText(x)
    ensures Untouched(Put(e, x))
  {
  }

  lemma CloseUntouched(e: Enc)
    requires Untouched(e)
    ensures Untouched(Close(e)) && !Close(e).blockOpen
  {
  }

  lemma ThinkingUntouched(e: Enc)
    requires Untouched(e)
    ensures Untouched(EnsureBlock(e, "thinking"))
  {
  }

  lemma StandaloneUntouched(e: Enc, h: Header)
    requires Untouched(e) && !h.TextHeader?
    ensures Untouched(Standalone(e, h))
  {
  }

  lemma ToolStartUntouched(e: Enc, index: int, id: string, name: string)
    requires Untouched(e) && !e.blockOpen
    ensures Untouched(StartToolCall(e, index, id, name))
  {
  }

  lemma EmitUntouched(e: Enc)
    requires Untouched(e)
    ensures Untouched(EmitMessageDelta(e))
  {
  }

  predicate HasText(ev: StreamEvent) {
    ev.body.TextDelta? && ev.body.text != ""
  }

  lemma ThoughtUntouched(e: Enc, d: Delta)
    requires Untouched(e)
    ensures var b := EnsureBlock(e, "thinking"); Untouched(b) && Untouched(Put(b, BlockDelta(b.blockIdx, d)))
  {
    ThinkingUntouched(e);
    var b := EnsureBlock(e, "thinking");
    hide EnsureBlock, Untouched;
    PutUntouched(b, BlockDelta(b.blockIdx, d));
  }

  lemma StopUntouched(e: Enc, reason: string)
    requires Untouched(e)
    ensures Untouched(Dispatch(e, MessageStop(reason)))
  {
    CloseUntouched(e);
    var c := Close(e).(stopReason := reason);
    assert Untouched(c);
    hide Untouched, Close, EmitMessageDelta;
    EmitUntouched(c);
  }

  lemma DispatchUntouched(e: Enc, body: EventBody)
    requires Untouched(e) && !(body.TextDelta? && body.text != "")
    ensures Untouched(Dispatch(e, body))
  {
    hide Untouched, FirstText, Close, EnsureBlock, Standalone, StartToolCall, EmitMessageDelta;
    CloseUntouched(e);
    match body
    case TextDelta(text) =>
    case ThinkingDelta(text) => ThoughtUntouched(e, ThinkingPiece(text));
    case ThinkingSignature(signature) => ThoughtUntouched(e, SignaturePiece(signature));
    case ToolCallStart(index, id, name) => ToolStartUntouched(Close(e), index, id, name);
    case ToolCallDelta(index, arguments) => PutUntouched(e, BlockDelta(Target(e, index), InputJsonPiece(arguments)));
    case ToolCallEnd =>
    case WebSearch(id, results) =>
      StandaloneUntouched(Close(e), ServerToolUseHeader(id));
      StandaloneUntouched(Standalone(Close(e), ServerToolUseHeader(id)), SearchResultHeader(id, results));
    case MessageStop(reason) => StopUntouched(e, reason);
    case UsageFinal(_) => EmitUntouched(e);
  }

  lemma StartUntouched(e: Enc, ev: StreamEvent)
    requires Untouched(e)
    ensures Untouched(StartMessage(NoteUsage(e, ev), ev))
  {
    var n := NoteUsage(e, ev);
    PutUntouched(n, MessageStart(ev.responseID, ev.model, Payload(n.usage)));
  }

  lemma StepUntouched(e: Enc, ev: StreamEvent)
    requires Untouched(e) && !HasText(ev)
    ensures Untouched(Step(e, ev))
  {
    StartUntouched(e, ev);
    hide Untouched, Dispatch, StartMessage, NoteUsage;
    DispatchUntouched(StartMessage(NoteUsage(e, ev), ev), ev.body);
  }

  lemma FinishUntouched(e: Enc)
    requires Untouched(e)
    ensures Untouched(Finish(e))
  {
    CloseUntouched(e);
    hide FirstText, Close;
    var c := Close(e);
    EmitUntouched(c);
    var d := if !c.messageDeltaEmitted && (c.stopReason != "" || c.usage.Some?) then EmitMessageDelta(c) else c;
    PutUntouched(d, MessageEnd);
  }

  // ----- the injection itself -----

  /** The two synthetic blocks, sent from a state with nothing open, lift that state. */
  lemma SearchBlocksLift(k: Enc, id: string, results: seq<WebSearchResult>)
    requires !k.blockOpen && MapBelow(k) && k.blockType == ""
    ensures Standalone(Standalone(k, ServerToolUseHeader(id)), SearchResultHeader(id, results)) ==
            Lift(k, |k.out|, k.blockIdx, SearchBlocks(k.blockIdx, id, results))
  {
    var s := Standalone(Standalone(k, ServerToolUseHeader(id)), SearchResultHeader(id, results));
    assert s.out == k.out + SearchBlocks(k.blockIdx, id, results);
    var l := Lift(k, |k.out|, k.blockIdx, SearchBlocks(k.blockIdx, id, results));
    assert k.out[..|k.out|] == k.out && ShiftAll(k.out[|k.out|..], k.blockIdx) == [];
    assert l.out == s.out;
    assert l.toolCallBlocks.Keys == k.toolCallBlocks.Keys;
    assert forall i :: i in k.toolCallBlocks ==> l.toolCallBlocks[i] == k.toolCallBlocks[i];
    assert l.toolCallBlocks == k.toolCallBlocks;
  }

  lemma InjectLifts(e: Enc, n: StreamEvent, results: seq<WebSearchResult>, c: Client)
    requires Untouched(e) && HasText(n) && n == Named(n, c)
    ensures var plain, k := Step(e, n), Close(StartMessage(e, n));
            && |k.out| < |plain.out|
            && k.blockIdx <= plain.blockIdx
            && FirstText(plain.out) == |k.out|
            && plain.out[|k.out|] == BlockStart(k.blockIdx, TextHeader)
            && Step(Inject(e, n, results, c), n) ==
               Lift(plain, |k.out|, k.blockIdx, SearchBlocks(k.blockIdx, c.toolUseId, results))
  {
    var m := StartMessage(e, n);
    StartUntouched(e, n);
    assert NoteUsage(e, n) == e;
    CloseUntouched(m);
    var k := Close(m);
    var ins := SearchBlocks(k.blockIdx, c.toolUseId, results);
    InjectIs(e, n, results, c);
    SearchBlocksLift(k, c.toolUseId, results);
    TextFrom(e, n);
    TextAfter(k, n, ins);
  }

  lemma InjectIs(e: Enc, n: StreamEvent, results: seq<WebSearchResult>, c: Client)
    requires n == Named(n, c)
    ensures var k := Close(StartMessage(e, n));
            Inject(e, n, results, c) ==
            Standalone(Standalone(k, ServerToolUseHeader(c.toolUseId)), SearchResultHeader(c.toolUseId, results))
  {
    hide Standalone, Close;
    var first := Named(StreamEvent(n.responseID, n.model, TextDelta("")), c);
    assert Step(e, first) == StartMessage(e, n);
    var second := Named(StreamEvent("", "", WebSearch(c.toolUseId, results)), c);
    assert StartMessage(StartMessage(e, n), second) == StartMessage(e, n);
  }

  /** A text event on a state without an open text block closes, opens and sends. */
  function SendText(k: Enc, text: string): Enc {
    var b := Open(k, TextHeader, "text");
    Put(b, BlockDelta(b.blockIdx, TextPiece(text)))
  }

  lemma TextFrom(e: Enc, n: StreamEvent)
    requires Untouched(e) && HasText(n)
    ensures Step(e, n) == SendText(Close(StartMessage(e, n)), n.body.text)
  {
  }

  lemma TextSent(k: Enc, text: string)
    requires Untouched(k) && !k.blockOpen
    ensures var plain := SendText(k, text);
            && FirstText(plain.out) == |k.out| < |plain.out|
            && plain.out[|k.out|] == BlockStart(k.blockIdx, TextHeader)
            && plain.blockIdx == k.blockIdx
  {
    var b := Open(k, TextHeader, "text");
    FirstTextPut(k.out, BlockStart(k.blockIdx, TextHeader));
    FirstTextPut(b.out, BlockDelta(b.blockIdx, TextPiece(text)));
    hide FirstText;
  }

  lemma TextAfter(k: Enc, n: StreamEvent, ins: seq<Sse>)
    requires Untouched(k) && !k.blockOpen && HasText(n)
    requires Identified(n) ==> k.messageStarted
    ensures var plain := SendText(k, n.body.text);
            && FirstText(plain.out) == |k.out| < |plain.out|
            && plain.out[|k.out|] == BlockStart(k.blockIdx, TextHeader)
            && plain.blockIdx == k.blockIdx
            && Step(Lift(k, |k.out|, k.blockIdx, ins), n) == Lift(plain, |k.out|, k.blockIdx, ins)
  {
    TextSent(k, n.body.text);
    var b := Open(k, TextHeader, "text");
    OpenLift(k, |k.out|, k.blockIdx, ins, TextHeader, "text");
    PutLift(b, |k.out|, k.blockIdx, ins, BlockDelta(b.blockIdx, TextPiece(n.body.text)));
    hide FirstText, ShiftAll, MapBelow;
    var l := Lift(k, |k.out|, k.blockIdx, ins);
    assert StartMessage(NoteUsage(l, n), n) == l;
    assert EnsureBlock(l, "text") == Open(l, TextHeader, "text");
  }

  // ----- the two loops side by side -----

  function Plain(c: Client): Client {
    c.(hasWebSearch := false)
  }

  ghost predicate Coupled(a: Relay, b: Relay, id: string) {
    && a.done == b.done && a.usage == b.usage && !a.injected
    && (!b.injected ==> a.enc == b.enc && Untouched(a.enc))
    && (b.injected ==>
          var n := FirstText(a.enc.out);
          && n < |a.enc.out|
          && a.enc.out[n].index <= a.enc.blockIdx
          && b.enc == Lift(a.enc, n, a.enc.out[n].index, SearchBlocks(a.enc.out[n].index, id, b.results)))
  }

  lemma StepExtends(e: Enc, ev: StreamEvent)
    ensures e.out <= Step(e, ev).out
  {
    assert After(e.out, e.(out := [])).out == e.out;
    StepAfter(e.out, e.(out := []), ev);
  }

  lemma LiftedStep(e: Enc, ev: StreamEvent, ins: seq<Sse>)
    requires FirstText(e.out) < |e.out| && e.out[FirstText(e.out)].index <= e.blockIdx
    ensures var n, t := FirstText(e.out), Step(e, ev);
            && FirstText(t.out) == n < |t.out|
            && t.out[n] == e.out[n]
            && e.out[n].index <= t.blockIdx
            && Step(Lift(e, n, e.out[n].index, ins), ev) == Lift(t, n, e.out[n].index, ins)
  {
    StepExtends(e, ev);
    var t := Step(e, ev);
    assert t.out == e.out + t.out[|e.out|..];
    FirstTextStays(e.out, t.out[|e.out|..]);
    StepLift(e, FirstText(e.out), e.out[FirstText(e.out)].index, ins, ev);
  }

  lemma EventCoupled(a: Relay, b: Relay, ev: StreamEvent, c: Client)
    requires Coupled(a, b, c.toolUseId) && c.hasWebSearch
    ensures Coupled(RelayEvent(a, ev, Plain(c)), RelayEvent(b, ev, c), c.toolUseId)
  {
    var n := Named(ev, c);
    assert n == Named(n, c) && Named(ev, Plain(c)) == n;
    hide Step, Inject, Lift, Untouched, FirstText, SearchBlocks;
    if b.injected {
      LiftedStep(a.enc, n, SearchBlocks(a.enc.out[FirstText(a.enc.out)].index, c.toolUseId, b.results));
    } else if HasText(n) {
      InjectLifts(a.enc, n, b.results, c);
    } else {
      StepUntouched(a.enc, n);
    }
  }

  lemma {:induction false} EventsCoupled(a: Relay, b: Relay, events: seq<StreamEvent>, c: Client)
    requires Coupled(a, b, c.toolUseId) && c.hasWebSearch
    ensures Coupled(RelayEvents(a, events, Plain(c)), RelayEvents(b, events, c), c.toolUseId)
    decreases |events|
  {
    if events != [] {
      EventCoupled(a, b, events[0], c);
      hide Coupled, RelayEvent;
      EventsCoupled(RelayEvent(a, events[0], Plain(c)), RelayEvent(b, events[0], c), events[1..], c);
    }
  }

  lemma FinishCoupled(a: Relay, b: Relay, id: string)
    requires Coupled(a, b, id)
    ensures Coupled(a.(enc := Finish(a.enc), done := true), b.(enc := Finish(b.enc), done := true), id)
  {
    var e := a.enc;
    if b.injected {
      var n := FirstText(e.out);
      var p := e.out[n].index;
      FinishLift(e, n, p, SearchBlocks(p, id, b.results));
      assert After(e.out, e.(out := [])).out == e.out;
      FinishAfter(e.out, e.(out := []));
      var t := Finish(e);
      assert t.out == e.out + t.out[|e.out|..];
      FirstTextStays(e.out, t.out[|e.out|..]);
    } else {
      FinishUntouched(e);
    }
  }

  // ----- the lines a search client hears -----

  predicate SpeaksText(events: seq<StreamEvent>)
    decreases |events|
  {
    events != [] && (HasText(events[0]) || SpeaksText(events[1..]))
  }

  /** All lines but the sources lines that come before the first line with text: those are captured, not decoded. */
  function Heard(lines: seq<Line>): seq<Line>
    decreases |lines|
  {
    if lines == [] then []
    else if IsSources(lines[0]) then Heard(lines[1..])
    else [lines[0]] + if SpeaksText(LineEvents(lines[0])) then lines[1..] else Heard(lines[1..])
  }

  /** The results of the last captured line. */
  function Captured(lines: seq<Line>, current: seq<WebSearchResult>): seq<WebSearchResult>
    decreases |lines|
  {
    if lines == [] || lines[0].DoneMark? then current
    else if IsSources(lines[0]) then Captured(lines[1..], Parsed(lines[0].sources))
    else if SpeaksText(LineEvents(lines[0])) then current
    else Captured(lines[1..], current)
  }

  lemma {:induction false} InjectedByText(b: Relay, events: seq<StreamEvent>, c: Client)
    requires c.hasWebSearch
    ensures var t := RelayEvents(b, events, c);
            t.injected == (b.injected || SpeaksText(events)) && t.results == b.results && t.done == b.done
    decreases |events|
  {
    hide Step, Inject;
    if events != [] {
      InjectedByText(RelayEvent(b, events[0], c), events[1..], c);
    }
  }

  /** A line that both loops decode. */
  lemma LineCoupled(a: Relay, b: Relay, line: Line, c: Client)
    requires Coupled(a, b, c.toolUseId) && c.hasWebSearch && (b.injected || !IsSources(line))
    ensures var s, t := RelayLine(a, line, Plain(c)), RelayLine(b, line, c);
            && Coupled(s, t, c.toolUseId)
            && t.injected == (b.injected || SpeaksText(LineEvents(line)))
            && t.results == b.results && t.done == (b.done || line.DoneMark?)
  {
    hide DecodeChunk, Parsed, Lift, FirstText, Untouched;
    if DecodeLine(line).Ok? {
      var d := DecodeLine(line).value;
      EventsCoupled(a, b, d.events, c);
      InjectedByText(b, d.events, c);
      hide Coupled;
      if d.done {
        FinishCoupled(RelayEvents(a, d.events, Plain(c)), RelayEvents(b, d.events, c), c.toolUseId);
      }
    }
  }

  lemma {:induction false} LinesCoupled(a: Relay, b: Relay, lines: seq<Line>, c: Client)
    requires Coupled(a, b, c.toolUseId) && c.hasWebSearch && !b.done
    ensures var plain, search :=
            RelayLines(a, if b.injected then lines else Heard(lines), Plain(c)), RelayLines(b, lines, c);
            && Coupled(plain, search, c.toolUseId)
            && search.results == if b.injected then b.results else Captured(lines, b.results)
    decreases |lines|
  {
    hide RelayLine, IsSources, LineEvents, SpeaksText, Parsed;
    if lines != [] {
      var line, rest := lines[0], lines[1..];
      if !b.injected && IsSources(line) {
        SourcesCaptured(b, line, c);
        CoupledIgnoresResults(a, b, Parsed(line.sources), c.toolUseId);
        LinesCoupled(a, RelayLine(b, line, c), rest, c);
      } else {
        LineCoupled(a, b, line, c);
        var s, t := RelayLine(a, line, Plain(c)), RelayLine(b, line, c);
        assert s.done == t.done == line.DoneMark? && !a.done;
        var heard := if b.injected then lines else Heard(lines);
        assert heard[0] == line && heard[1..] == if t.injected then rest else Heard(rest);
        if !t.done {
          LinesCoupled(s, t, rest, c);
        }
      }
    }
  }

  lemma SourcesCaptured(b: Relay, line: Line, c: Client)
    requires c.hasWebSearch && !b.injected && IsSources(line)
    ensures line.Data? && RelayLine(b, line, c) == b.(results := Parsed(line.sources))
  {
  }

  lemma CoupledIgnoresResults(a: Relay, b: Relay, results: seq<WebSearchResult>, id: string)
    requires Coupled(a, b, id) && !b.injected
    ensures Coupled(a, b.(results := results), id)
  {
  }

  /**
    For every upstream body, the search stream on its lines is the plain stream on the
    lines a search client hears, with the two blocks inserted before the first text
    block; they carry the last results captured before it, and are injected exactly
    when there is a text block. Upstream usage and the end of the stream are untouched.
   */
  lemma InjectionIsInsertion(lines: seq<Line>, c: Client)
    requires c.hasWebSearch
    ensures var plain, search := RelayLines(Opening, Heard(lines), Plain(c)), RelayLines(Opening, lines, c);
            && search.enc.out == WithSearch(plain.enc.out, c.toolUseId, search.results)
            && search.results == Captured(lines, [])
            && (search.injected <==> exists x :: x in plain.enc.out && StartsText(x))
            && search.usage == plain.usage && search.done == plain.done
  {
    LinesCoupled(Opening, Opening, lines, c);
    var trace := RelayLines(Opening, Heard(lines), Plain(c)).enc.out;
    if FirstText(trace) < |trace| {
      assert trace[FirstText(trace)] in trace;
    }
  }

  // ----- sources lines that carry nothing else -----

  /** A line without events leaves the plain loop as it was. */
  lemma {:induction false} NothingHeard(r: Relay, lines: seq<Line>, c: Client)
    requires !c.hasWebSearch && SourcesOnly(lines)
    ensures RelayLines(r, Heard(lines), c) == RelayLines(r, lines, c)
    decreases |lines|
  {
    hide DecodeChunk, Parsed, SpeaksText;
    if lines != [] {
      var line, rest := lines[0], lines[1..];
      assert line in lines && SourcesOnly(rest);
      if IsSources(line) {
        assert DecodeLine(line).value.events == LineEvents(line) == [];
        assert RelayLine(r, line, c) == r;
        NothingHeard(r, rest, c);
      } else {
        NothingHeard(RelayLine(r, line, c), rest, c);
        var heard := Heard(lines);
        assert heard[0] == line && heard[1..] == if SpeaksText(LineEvents(line)) then rest else Heard(rest);
      }
    }
  }

  /** When sources lines carry nothing else, the search stream is the plain one on the same lines, with the blocks. */
  lemma InjectionIntoSameLines(lines: seq<Line>, c: Client)
    requires c.hasWebSearch && SourcesOnly(lines)
    ensures var plain, search := RelayLines(Opening, lines, Plain(c)), RelayLines(Opening, lines, c);
            && search.enc.out == WithSearch(plain.enc.out, c.toolUseId, search.results)
            && (search.injected <==> exists x :: x in plain.enc.out && StartsText(x))
            && search.usage == plain.usage && search.done == plain.done
  {
    InjectionIsInsertion(lines, c);
    NothingHeard(Opening, lines, Plain(c));
  }
}
