/**
  The event-level results carried to the loop of server/public_anthropic.go: what an
  Anthropic client receives for a whole upstream body, with web search or without.
 */
module Delivery {
  import opened Wrappers
  import opened Types
  import opened AnthropicEncoder
  import opened AnthropicClient
  import opened WebSearch
  import opened Grammar
  import opened OpenAIStream
  import opened Aggregate
  import opened Agreement
  import opened AnthropicRelay
  import Bookkeeping
  import ChunkOrder
  import ClosingDelta
  import Discipline
  import Insertion
  import OpenAIRelay
  import Reading
  import SearchInjection
  import SourcesArguments

  // ----- the loop is a run -----

  lemma RunAppend(s: Enc, a: seq<StreamEvent>, b: seq<StreamEvent>)
    ensures Run(s, a + b) == Run(Run(s, a), b)
    decreases |a|
  {
    hide Step;
    if a == [] {
      Unit(b);
    } else {
      assert (a + b)[1..] == a[1..] + b;
      RunAppend(Step(s, a[0]), a[1..], b);
    }
  }

  lemma {:induction false} RelayEventsRun(r: Relay, events: seq<StreamEvent>, c: Client)
    requires !c.hasWebSearch
    ensures var t := RelayEvents(r, events, c);
            t.enc == Run(r.enc, NamedAll(events, c)) && t.done == r.done && t.injected == r.injected
    decreases |events|
  {
    hide Step, Inject;
    if events != [] {
      RelayEventsRun(RelayEvent(r, events[0], c), events[1..], c);
      assert NamedAll(events, c)[0] == Named(events[0], c);
      assert NamedAll(events, c)[1..] == NamedAll(events[1..], c);
    }
  }

  /** Without web search the loop encodes every decoded event, and ends the message only on `[DONE]`. */
  lemma {:induction false} RelayIsRun(r: Relay, lines: seq<Line>, c: Client)
    requires !c.hasWebSearch && !r.done
    ensures var t, s := RelayLines(r, lines, c), Run(r.enc, NamedAll(AllEvents(lines), c));
            t.enc == (if SaysDone(lines) then Finish(s) else s) && t.done == SaysDone(lines)
    decreases |lines|
  {
    hide Run, Finish, LineEvents, NamedAll, Parsed;
    NothingNamed(r.enc, c);
    if lines != [] {
      var line, rest := lines[0], lines[1..];
      PlainLine(r, line, c);
      if !line.DoneMark? {
        RelayIsRun(RelayLine(r, line, c), rest, c);
        NamedAppend(LineEvents(line), AllEvents(rest), c);
        RunAppend(r.enc, NamedAll(LineEvents(line), c), NamedAll(AllEvents(rest), c));
      }
    }
  }

  lemma NothingNamed(e: Enc, c: Client)
    ensures Run(e, NamedAll([], c)) == e
  {
  }

  lemma PlainLine(r: Relay, line: Line, c: Client)
    requires !c.hasWebSearch && !r.done
    ensures var t, s := RelayLine(r, line, c), Run(r.enc, NamedAll(LineEvents(line), c));
            t.enc == (if line.DoneMark? then Finish(s) else s) && t.done == line.DoneMark?
  {
    hide DecodeChunk, Parsed;
    RelayEventsRun(r, LineEvents(line), c);
  }

  // ----- what any client receives -----

  /** The lines the loop decodes for this client. */
  function Received(lines: seq<Line>, c: Client): seq<Line> {
    if c.hasWebSearch then SearchInjection.Heard(lines) else lines
  }

  /** The events it encodes, under the client's id and model. */
  function Encoded(lines: seq<Line>, c: Client): seq<StreamEvent> {
    NamedAll(AllEvents(Received(lines, c)), c)
  }

  lemma {:induction false} HeardEnds(lines: seq<Line>)
    ensures SaysDone(SearchInjection.Heard(lines)) == SaysDone(lines)
    decreases |lines|
  {
    hide Parsed, LineEvents, SearchInjection.SpeaksText;
    if lines != [] {
      HeardEnds(lines[1..]);
      var heard := SearchInjection.Heard(lines);
      if !IsSources(lines[0]) {
        assert heard[0] == lines[0];
        assert heard[1..] == lines[1..] || heard[1..] == SearchInjection.Heard(lines[1..]);
      }
    }
  }

  /** The stream before the search blocks are put in: the run of the encoded events, closed if the upstream is. */
  function PlainStream(lines: seq<Line>, c: Client): Enc {
    var s := Run(Init, Encoded(lines, c));
    if SaysDone(lines) then Finish(s) else s
  }

  /** Every relayed stream is the plain stream of the encoded events, with the search blocks or without. */
  lemma RelayedIsPlain(lines: seq<Line>, c: Client)
    ensures var relay, plain := RelayLines(Opening, lines, c), PlainStream(lines, c).out;
            relay.enc.out == if c.hasWebSearch then WithSearch(plain, c.toolUseId, relay.results) else plain
  {
    var p := SearchInjection.Plain(c);
    HeardEnds(lines);
    RelayIsRun(Opening, Received(lines, c), p);
    if c.hasWebSearch {
      SearchInjection.InjectionIsInsertion(lines, c);
    } else {
      assert p == c;
    }
  }

  // ----- message_stop only after [DONE] -----

  ghost predicate NoEnd(s: Enc) {
    MessageEnd !in s.out
  }

  lemma CloseNoEnd(s: Enc)
    requires NoEnd(s)
    ensures NoEnd(Close(s))
  {
  }

  lemma EnsureNoEnd(s: Enc, blockType: string)
    requires NoEnd(s)
    ensures NoEnd(EnsureBlock(s, blockType))
  {
  }

  lemma StandaloneNoEnd(s: Enc, h: Header)
    requires NoEnd(s)
    ensures NoEnd(Standalone(s, h))
  {
  }

  lemma PutNoEnd(s: Enc, x: Sse)
    requires NoEnd(s) && !x.MessageEnd?
    ensures NoEnd(Put(s, x))
  {
  }

  lemma SearchNoEnd(s: Enc, id: string, results: seq<WebSearchResult>)
    requires NoEnd(s)
    ensures NoEnd(Dispatch(s, WebSearch(id, results)))
  {
    hide NoEnd, Close, Standalone;
    CloseNoEnd(s);
    StandaloneNoEnd(Close(s), ServerToolUseHeader(id));
    StandaloneNoEnd(Standalone(Close(s), ServerToolUseHeader(id)), SearchResultHeader(id, results));
  }

  lemma DispatchNoEnd(s: Enc, body: EventBody)
    requires NoEnd(s)
    ensures NoEnd(Dispatch(s, body))
  {
    CloseNoEnd(s);
    EnsureNoEnd(s, "text");
    EnsureNoEnd(s, "thinking");
    hide EnsureBlock, Close, Standalone, Payload;
    if body.WebSearch? {
      SearchNoEnd(s, body.toolUseId, body.results);
    }
  }

  lemma StepNoEnd(s: Enc, ev: StreamEvent)
    requires NoEnd(s)
    ensures NoEnd(Step(s, ev))
  {
    var n := NoteUsage(s, ev);
    assert NoEnd(n);
    PutNoEnd(n, MessageStart(ev.responseID, ev.model, Payload(n.usage)));
    assert NoEnd(StartMessage(n, ev));
    hide NoEnd, Dispatch;
    DispatchNoEnd(StartMessage(n, ev), ev.body);
  }

  lemma FinishEnds(s: Enc)
    ensures MessageEnd in Finish(s).out
  {
  }

  lemma RelayEventNoEnd(r: Relay, ev: StreamEvent, c: Client)
    requires NoEnd(r.enc)
    ensures NoEnd(RelayEvent(r, ev, c).enc) && RelayEvent(r, ev, c).done == r.done
  {
    hide Step, NoEnd;
    var n := Named(ev, c);
    var first := Named(StreamEvent(n.responseID, n.model, TextDelta("")), c);
    StepNoEnd(r.enc, first);
    StepNoEnd(Step(r.enc, first), Named(StreamEvent("", "", WebSearch(c.toolUseId, r.results)), c));
    StepNoEnd(if Triggers(r, n, c) then Inject(r.enc, n, r.results, c) else r.enc, n);
  }

  lemma {:induction false} RelayEventsNoEnd(r: Relay, events: seq<StreamEvent>, c: Client)
    requires NoEnd(r.enc)
    ensures NoEnd(RelayEvents(r, events, c).enc) && RelayEvents(r, events, c).done == r.done
    decreases |events|
  {
    hide RelayEvent, NoEnd;
    if events != [] {
      RelayEventNoEnd(r, events[0], c);
      RelayEventsNoEnd(RelayEvent(r, events[0], c), events[1..], c);
    }
  }

  lemma {:induction false} LinesEnd(r: Relay, lines: seq<Line>, c: Client)
    requires NoEnd(r.enc) && !r.done
    ensures var t := RelayLines(r, lines, c);
            t.done == SaysDone(lines) && (MessageEnd in t.enc.out <==> SaysDone(lines))
    decreases |lines|
  {
    hide Finish, DecodeChunk, Parsed, RelayEvents;
    if lines != [] {
      var line := lines[0];
      if line.DoneMark? {
        RelayEventsNoEnd(r, [], c);
        FinishEnds(RelayEvents(r, [], c).enc);
        assert RelayLine(r, line, c).done;
      } else {
        RelayEventsNoEnd(r, if line.Data? && line.chunk.Some? then DecodeChunk(line.chunk.value) else [], c);
        LinesEnd(RelayLine(r, line, c), lines[1..], c);
      }
    }
  }

  /** For every upstream body the client is told the message is over if and only if the upstream said `[DONE]`. */
  lemma StopOnlyOnDone(lines: seq<Line>, c: Client)
    ensures MessageEnd in RelayLines(Opening, lines, c).enc.out <==> SaysDone(lines)
  {
    LinesEnd(Opening, lines, c);
  }

  // ----- the relayed message is grammatical -----

  lemma GrammaticalEnds(trace: seq<Sse>)
    requires Grammatical(trace)
    ensures MessageEnd in trace
  {
    var m :| WellTyped(m) && Render(m) == trace;
    assert Render(m)[|Render(m)| - 1] == MessageEnd;
  }

  /**
    For every upstream body and client, searched or plain, the relayed stream is one
    grammatical message if and only if the upstream said `[DONE]` and the events the
    loop encoded are disciplined. Malformed lines are skipped.
   */
  lemma RelayedMessageIsGrammatical(lines: seq<Line>, c: Client)
    ensures Grammatical(RelayLines(Opening, lines, c).enc.out) <==>
            SaysDone(lines) && Discipline.Disciplined(Encoded(lines, c))
  {
    var relay := RelayLines(Opening, lines, c);
    RelayedIsPlain(lines, c);
    StopOnlyOnDone(lines, c);
    Insertion.InsertionKeepsGrammar(PlainStream(lines, c).out, c.toolUseId, relay.results);
    Discipline.StreamIsGrammatical(Encoded(lines, c));
    hide Grammatical, RelayLines, Encoded, SaysDone, WithSearch, Run, Finish, Discipline.Disciplined;
    if Grammatical(relay.enc.out) {
      GrammaticalEnds(relay.enc.out);
    }
  }

  /** The chunks of the lines up to `[DONE]`. */
  function ChunksOf(lines: seq<Line>): seq<Chunk>
    decreases |lines|
  {
    if lines == [] || lines[0].DoneMark? then []
    else (if lines[0].Data? && lines[0].chunk.Some? then [lines[0].chunk.value] else []) + ChunksOf(lines[1..])
  }

  lemma {:induction false} EventsOfChunks(lines: seq<Line>)
    ensures AllEvents(lines) == DecodeAll(ChunksOf(lines))
    decreases |lines|
  {
    hide DecodeChunk;
    if lines != [] && !lines[0].DoneMark? {
      EventsOfChunks(lines[1..]);
      if lines[0].Data? && lines[0].chunk.Some? {
        DecodeAllAppend([lines[0].chunk.value], ChunksOf(lines[1..]));
        DecodeSingle(lines[0].chunk.value);
      } else {
        Unit(ChunksOf(lines[1..]));
        Unit(AllEvents(lines[1..]));
      }
    }
  }

  /** So orderly chunks, ended by `[DONE]`, become one grammatical message. */
  lemma OrderlyBodyIsGrammatical(lines: seq<Line>, c: Client)
    requires c.responseID != "" && SaysDone(lines)
    requires var chunks := ChunksOf(Received(lines, c)); ChunkOrder.Orderly(chunks) && DecodeAll(chunks) != []
    ensures Grammatical(RelayLines(Opening, lines, c).enc.out)
  {
    EventsOfChunks(Received(lines, c));
    ChunkOrder.OrderlyChunksAreGrammatical(ChunksOf(Received(lines, c)), c.responseID, c.model);
    Discipline.StreamIsGrammatical(Encoded(lines, c));
    RelayedMessageIsGrammatical(lines, c);
  }

  // ----- the relayed message as it is read -----

  lemma PlainIsNumbered(lines: seq<Line>, c: Client)
    ensures Numbered(PlainStream(lines, c).out)
  {
    var s := Run(Init, Encoded(lines, c));
    Bookkeeping.BlocksAlternate(Encoded(lines, c));
    hide *;
    Insertion.AlternatingIsNumbered(s.out, 2 * s.blockIdx + if s.blockOpen then 1 else 0);
    Insertion.AlternatingIsNumbered(Finish(s).out, 2 * Finish(s).blockIdx);
    EitherStream(lines, c);
  }

  lemma EitherStream(lines: seq<Line>, c: Client)
    ensures var s := Run(Init, Encoded(lines, c)); PlainStream(lines, c) == s || PlainStream(lines, c) == Finish(s)
  {
  }

  lemma PlainReads(lines: seq<Line>, c: Client)
    ensures var seen, plain := Blocks(RelayLines(Opening, lines, c).enc.out), Blocks(Run(Init, Encoded(lines, c)).out);
            TextOf(seen) == TextOf(plain) && ThinkingOf(seen) == ThinkingOf(plain) && ToolsOf(seen) == ToolsOf(plain)
    ensures Numbered(RelayLines(Opening, lines, c).enc.out)
  {
    RelayedIsPlain(lines, c);
    PlainIsNumbered(lines, c);
    StreamedEqualsAggregated(Encoded(lines, c));
    Insertion.InsertionReadsSame(PlainStream(lines, c).out, c.toolUseId, RelayLines(Opening, lines, c).results);
    hide RelayLines, Numbered, WithSearch, Run, Encoded, Blocks, TextOf, ThinkingOf, ToolsOf, Finish;
  }

  /**
    For every upstream body and client, ended or not: it does not matter whether the
    client counts the blocks or keys them by index; and what it reads is the
    aggregation of the events the loop encoded, argument strings included exactly when
    no stray delta lands in another call's open block, and nowhere shorter in any case.
   */
  lemma RelayedReads(lines: seq<Line>, c: Client)
    ensures var out, a := RelayLines(Opening, lines, c).enc.out, ApplyAll(Empty, Encoded(lines, c));
            && SameBlocks(Keyed(out), Blocks(out))
            && TextOf(Blocks(out)) == Join(a.textParts)
            && ThinkingOf(Blocks(out)) == Join(a.thinkingParts)
            && SameCalls(ToolsOf(Blocks(out)), a.toolCalls)
            && (SameArguments(ToolsOf(Blocks(out)), a.toolCalls) <==> StrayFree(Encoded(lines, c), {}, false))
            && NoShorter(ToolsOf(Blocks(out)), a.toolCalls)
  {
    PlainReads(lines, c);
    KeyedIsCounted(RelayLines(Opening, lines, c).enc.out);
    StreamedEqualsAggregated(Encoded(lines, c));
    hide RelayLines, Numbered, SameBlocks, Encoded, Blocks, TextOf, ThinkingOf, ToolsOf, ApplyAll, Finish, Run,
      StrayFree;
  }

  // ----- streamed against aggregated, line by line -----

  /** What the client sees of an aggregate: its identity aside. */
  ghost predicate SameContent(a: Agg, b: Agg) {
    && a.textParts == b.textParts && a.thinkingParts == b.thinkingParts && a.toolCalls == b.toolCalls
    && a.stopReason == b.stopReason && a.usage == b.usage
  }

  lemma NamedApply(a: Agg, b: Agg, ev: StreamEvent, c: Client)
    requires SameContent(a, b)
    ensures SameContent(Apply(a, ev), Apply(b, Named(ev, c)))
  {
    hide LastWith, MergeUsage;
  }

  lemma {:induction false} NamesDoNotMatter(a: Agg, b: Agg, events: seq<StreamEvent>, c: Client)
    requires SameContent(a, b)
    ensures SameContent(ApplyAll(a, events), ApplyAll(b, NamedAll(events, c)))
    decreases |events|
  {
    if events != [] {
      var named := NamedAll(events, c);
      assert named[0] == Named(events[0], c) && named[1..] == NamedAll(events[1..], c);
      NamedApply(a, b, events[0], c);
      hide Apply, SameContent;
      NamesDoNotMatter(Apply(a, events[0]), Apply(b, named[0]), events[1..], c);
    }
  }

  /** Dropping sources lines does not change what is delivered without them. */
  lemma {:induction false} HeardDelivers(lines: seq<Line>)
    ensures Delivered(SearchInjection.Heard(lines)) == Delivered(lines)
    decreases |lines|
  {
    hide Parsed, LineEvents, SearchInjection.SpeaksText;
    if lines != [] && !lines[0].DoneMark? {
      HeardDelivers(lines[1..]);
      var heard := SearchInjection.Heard(lines);
      if IsSources(lines[0]) {
        Unit(Delivered(lines[1..]));
      } else {
        assert heard[0] == lines[0];
        assert heard[1..] == lines[1..] || heard[1..] == SearchInjection.Heard(lines[1..]);
      }
    }
  }

  /** The loop reads the sources lines it hears, the aggregator never does. */
  lemma HeardAgainstAggregated(lines: seq<Line>, c: Client)
    ensures Reading.Interleaves(Reading.Held(ApplyAll(Empty, Encoded(lines, c))),
                                Reading.Held(ApplyAll(Empty, Delivered(lines))),
                                Reading.SourcesSay(Received(lines, c)))
  {
    HeardDelivers(lines);
    Reading.SourcesInterleave(Received(lines, c));
    Reading.FreshReads(Encoded(lines, c));
    Reading.FreshReads(Delivered(lines));
    Reading.ReadsIgnoresNames(AllEvents(Received(lines, c)), c.responseID, c.model);
  }

  /**
    For every upstream body that decodes, ended or not, and every client, searched or
    plain: the streamed text is the aggregated one if and only if the sources lines
    that the loop decodes carry no text, and likewise for the thinking and for the list
    of calls. If they start no call, the argument strings agree exactly when no stray
    delta lands in another call's open block and none of those lines adds to a call that
    another line started.
   */
  lemma RelayedReadsAsAggregated(lines: seq<Line>, c: Client)
    ensures var r := OpenAIRelay.AggregateLines(OpenAIRelay.Blank, lines);
            && (r.Ok? <==> AllDecode(lines))
            && (r.Ok? ==>
                  var seen, a := Blocks(RelayLines(Opening, lines, c).enc.out), r.value.agg;
                  var extra := Reading.SourcesSay(Received(lines, c));
                  && (TextOf(seen) == Join(a.textParts) <==> extra.text == "")
                  && (ThinkingOf(seen) == Join(a.thinkingParts) <==> extra.thinking == "")
                  && (SameCalls(ToolsOf(seen), a.toolCalls) <==> extra.calls == [])
                  && (extra.calls == [] ==>
                        && SameCalls(ToolsOf(seen), a.toolCalls)
                        && (SameArguments(ToolsOf(seen), a.toolCalls) <==>
                              && StrayFree(Encoded(lines, c), {}, false)
                              && SourcesArguments.SourcesAddNothing(Received(lines, c), {}))))
  {
    OpenAIRelay.AggregateIsFold(OpenAIRelay.Blank, lines);
    RelayedReads(lines, c);
    HeardAgainstAggregated(lines, c);
    var tools := ToolsOf(Blocks(RelayLines(Opening, lines, c).enc.out));
    var all, kept := ApplyAll(Empty, Encoded(lines, c)).toolCalls, ApplyAll(Empty, Delivered(lines)).toolCalls;
    CallsByName(tools, all, kept);
    var extra := Reading.SourcesSay(Received(lines, c));
    if extra.calls == [] {
      HeardDelivers(lines);
      SourcesArguments.SourcesOnlyAdd(Received(lines, c));
      NamesDoNotMatter(Empty, Empty, AllEvents(Received(lines, c)), c);
      ArgumentsAgainstKept(tools, all, kept, SourcesArguments.SourcesAddNothing(Received(lines, c), {}));
    }
    hide Received, Encoded, RelayLines, Blocks, TextOf, ThinkingOf, ToolsOf, ApplyAll, Delivered, StrayFree,
      AllDecode, SameArguments, SameCalls, NoShorter, SourcesArguments.Grown, SourcesArguments.SourcesAddNothing;
  }

  /** A client ahead of calls that are ahead of those kept agrees with these only if both are level. */
  lemma ArgumentsAgainstKept(tools: seq<ToolCall>, all: seq<Call>, kept: seq<Call>, same: bool)
    requires SameCalls(tools, all) && NoShorter(tools, all) && SourcesArguments.Grown(kept, all, same)
    ensures SameCalls(tools, kept)
    ensures SameArguments(tools, kept) <==> SameArguments(tools, all) && same
  {
    if SameArguments(tools, kept) {
      forall i | 0 <= i < |all|
        ensures |kept[i].arguments| == |all[i].arguments| == |tools[i].arguments|
      {
        assert |kept[i].arguments| <= |all[i].arguments| <= |tools[i].arguments|;
      }
    }
  }

  lemma CallsByName(tools: seq<ToolCall>, all: seq<Call>, kept: seq<Call>)
    requires SameCalls(tools, all)
    ensures SameCalls(tools, kept) <==> Reading.NamesOf(all) == Reading.NamesOf(kept)
  {
    var a, k := Reading.NamesOf(all), Reading.NamesOf(kept);
    if SameCalls(tools, kept) {
      assert |a| == |k| && forall i :: 0 <= i < |a| ==> a[i] == k[i];
    }
    if a == k {
      assert forall i :: 0 <= i < |kept| ==> (all[i].id, all[i].name) == a[i] == k[i] == (kept[i].id, kept[i].name);
    }
  }

  // ----- the closing delta, line by line -----

  /**
    For every body and every client: the aggregated answer exists if and only if the body
    decodes, and then the stream closes with one delta that says what that answer says if
    and only if the events encoded complete the pair, or the body ends and they hold a
    report or a stop, and what they tell is the last stop and the last counts of the
    events aggregated.
   */
  lemma RelayedClosingDelta(lines: seq<Line>, c: Client, parse: Parser)
    ensures var r, events := OpenAIRelay.AggregateLines(OpenAIRelay.Blank, lines), Encoded(lines, c);
            && (r.Ok? <==> AllDecode(lines))
            && (r.Ok? ==>
                  (ClosingDelta.Closes(RelayLines(Opening, lines, c).enc.out, Final(r.value.agg, parse)) <==>
                     && (|| Bookkeeping.Completed(events)
                         || (&& SaysDone(lines)
                             && (Bookkeeping.SawUsage(events) || Bookkeeping.LatestStop(events) != "")))
                     && ClosingDelta.TellsOf(events, Delivered(lines))))
  {
    var events, own := Encoded(lines, c), Delivered(lines);
    OpenAIRelay.AggregateIsFold(OpenAIRelay.Blank, lines);
    RelayedIsPlain(lines, c);
    Insertion.InsertionKeepsDeltas(PlainStream(lines, c).out, c.toolUseId, RelayLines(Opening, lines, c).results);
    ClosingDelta.ClosedAgainstAnswer(events, own, parse);
    ClosingDelta.OpenAgainstAnswer(events, own, parse);
    hide RelayLines, Run, Finish, ApplyAll, WithSearch, Encoded, Delivered, AllDecode, SaysDone, FinalContent,
      Bookkeeping.Completed, Bookkeeping.SawUsage, Bookkeeping.LatestStop, Bookkeeping.MessageDeltas,
      ClosingDelta.TellsOf, OpenAIRelay.AggregateLines;
  }
}
