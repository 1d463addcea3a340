/**
  The finish reason and the usage an OpenAI client hears last, against those of the
  aggregated answer.
 */
module EndingAgreement {
  import opened Wrappers
  import opened Types
  import opened WebSearch
  import opened OpenAIStream
  import opened Aggregate
  import opened OpenAIRelay
  import opened FooterAgreement
  import opened Bookkeeping
  import opened ClosingDelta
  import Reading

  // ----- what the chunks say last -----

  datatype Ending = Ending(finish: Option<string>, usage: Option<RawUsage>)

  const Unheard := Ending(None, None)

  function Hear(e: Ending, c: Chunk): Ending {
    Ending(Newer(if c.choices == [] then None else c.choices[0].finishReason, e.finish), Newer(c.usage, e.usage))
  }

  function EndOf(chunks: seq<Chunk>): Ending {
    if chunks == [] then Unheard else Hear(EndOf(chunks[..|chunks| - 1]), chunks[|chunks| - 1])
  }

  function Note(e: Ending, body: EventBody): Ending {
    match body
    case MessageStop(reason) => e.(finish := Some(DenormalizeStop(reason)))
    case UsageFinal(Some(u)) => e.(usage := Some(EncodeUsage(u)))
    case _ => e
  }

  function NoteAll(e: Ending, events: seq<StreamEvent>): Ending
    decreases |events|
  {
    if events == [] then e else NoteAll(Note(e, events[0].body), events[1..])
  }

  lemma EndSnoc(chunks: seq<Chunk>, c: Chunk)
    ensures EndOf(chunks + [c]) == Hear(EndOf(chunks), c)
  {
    assert (chunks + [c])[..|chunks|] == chunks;
  }

  lemma SentEnds(e: OEnc, delta: StreamDelta, finish: Option<string>)
    ensures EndOf(Send(e, delta, finish).out) == EndOf(e.out).(finish := Newer(finish, EndOf(e.out).finish))
  {
    EndSnoc(e.out, Chunk(e.responseID, e.model, [Choice(delta, finish)], None));
    hide EndOf;
  }

  lemma StepEnds(e: OEnc, ev: StreamEvent)
    ensures EndOf(OStep(e, ev).out) == Note(EndOf(e.out), ev.body)
  {
    hide EndOf, EncodeUsage, DenormalizeStop;
    var l, open := Latch(e, ev), NoDelta.(role := Role(Latch(e, ev)));
    match ev.body
    case TextDelta(text) => SentEnds(l, open.(content := Some(text)), None);
    case ThinkingDelta(text) => SentEnds(l, open.(reasoningContent := Some(text)), None);
    case ToolCallStart(index, id, name) =>
      SentEnds(l, NoDelta.(role := "assistant"), None);
      var r := if l.started then l else Send(l, NoDelta.(role := "assistant"), None).(started := true);
      SentEnds(r, NoDelta.(toolCalls := [StreamToolCall(index, id, name, "")]), None);
    case ToolCallDelta(index, arguments) =>
      SentEnds(l, NoDelta.(toolCalls := [StreamToolCall(index, "", "", arguments)]), None);
    case MessageStop(reason) => SentEnds(l, NoDelta, Some(DenormalizeStop(reason)));
    case UsageFinal(usage) =>
      if usage.Some? {
        EndSnoc(e.out, Chunk(l.responseID, l.model, [], Some(EncodeUsage(usage.value))));
      }
    case _ =>
  }

  lemma {:induction false} RunEnds(e: OEnc, events: seq<StreamEvent>)
    ensures EndOf(ORun(e, events).out) == NoteAll(EndOf(e.out), events)
    decreases |events|
  {
    hide EndOf, OStep, Note;
    if events != [] {
      StepEnds(e, events[0]);
      RunEnds(OStep(e, events[0]), events[1..]);
    }
  }

  // ----- footers and names do not matter -----

  lemma {:induction false} NoteAppend(e: Ending, a: seq<StreamEvent>, b: seq<StreamEvent>)
    ensures NoteAll(e, a + b) == NoteAll(NoteAll(e, a), b)
    decreases |a|
  {
    hide Note;
    if a == [] {
      Unit(b);
    } else {
      assert (a + b)[1..] == a[1..] + b;
      NoteAppend(Note(e, a[0].body), a[1..], b);
    }
  }

  lemma {:induction false} NamesUnnoted(e: Ending, events: seq<StreamEvent>, c: Client)
    ensures NoteAll(e, NamedAll(events, c)) == NoteAll(e, events)
    decreases |events|
  {
    hide Note;
    if events != [] {
      NamesUnnoted(Note(e, events[0].body), events[1..], c);
      assert NamedAll(events, c)[1..] == NamedAll(events[1..], c);
      assert NamedAll(events, c)[0].body == events[0].body;
    }
  }

  lemma {:induction false} CueUnnoted(e: Ending, events: seq<StreamEvent>, footer: string)
    ensures NoteAll(e, Cue(events, footer)) == NoteAll(e, events)
    decreases |events|
  {
    if events != [] {
      var ev, rest := events[0], Cue(events[1..], footer);
      var foot := StreamEvent("", "", TextDelta(footer));
      assert Note(e, foot.body) == e;
      assert Cue(events, footer) == [ev] + rest || Cue(events, footer) == [foot] + ([ev] + rest);
      hide Note, Cue;
      CueUnnoted(Note(e, ev.body), events[1..], footer);
      assert ([ev] + rest)[1..] == rest && ([foot] + ([ev] + rest))[1..] == [ev] + rest;
    }
  }

  lemma {:induction false} CuedUnnoted(e: Ending, lines: seq<Line>, c: Client, results: seq<WebSearchResult>)
    ensures NoteAll(e, Cued(lines, c, results)) == NoteAll(e, HeardEvents(lines, c))
    decreases |lines|
  {
    hide LineEvents, Footer, Parsed, Cue, NoteAll;
    if lines != [] && !lines[0].DoneMark? {
      var line, rest := lines[0], lines[1..];
      if c.hasWebSearch && IsSources(line) {
        CuedUnnoted(e, rest, c, Parsed(line.sources));
        Unit(Delivered(rest));
      } else {
        var own, footer := LineEvents(line), Footer(results);
        CueUnnoted(e, own, footer);
        NoteAppend(e, Cue(own, footer), Cued(rest, c, results));
        CuedUnnoted(NoteAll(e, own), rest, c, results);
        NoteAppend(e, own, HeardEvents(rest, c));
        assert HeardEvents(lines, c) == own + HeardEvents(rest, c);
      }
    }
  }

  // ----- decoded events -----

  /** Of decoded events, the last stop and the last report are heard. */
  lemma {:induction false} LastIsHeard(events: seq<StreamEvent>)
    requires Decodable(events)
    ensures NoteAll(Unheard, events) == Ending(FinishOf(LatestStop(events)), UsageOf(LatestUsage(events)))
  {
    if events != [] {
      var rest, ev := events[..|events| - 1], events[|events| - 1];
      DecodablePrefix(events);
      LastIsHeard(rest);
      LastOf(events);
      NoteAppend(Unheard, rest, [ev]);
      hide EncodeUsage;
    }
  }

  // ----- relayed against aggregated -----

  /** The last report repeats every detail an earlier one gave. */
  predicate RepeatsDetails(events: seq<StreamEvent>) {
    var last, reports := LatestUsage(events), Reports(events);
    last.Some? ==>
      && last.value.reasoning == LastSome(Field(reports, (u: Usage) => u.reasoning))
      && last.value.cacheRead == LastSome(Field(reports, (u: Usage) => u.cacheRead))
      && last.value.cacheWrite == LastSome(Field(reports, (u: Usage) => u.cacheWrite))
  }

  /** The last of decoded reports is the merged one exactly when it repeats the details. */
  lemma LastIsMerged(events: seq<StreamEvent>)
    requires Decodable(events)
    ensures LatestUsage(events) == ApplyAll(Empty, events).usage <==> RepeatsDetails(events)
    ensures var u := ApplyAll(Empty, events).usage; u.Some? ==> Complete(u.value)
  {
    UsageIsFieldwiseLast(events);
    ReportsSeen(events);
    RunTells(events);
    if SawUsage(events) {
      LatestReport(events);
    }
    hide ApplyAll, LatestUsage, SawUsage, Reports, Field, LastSome;
  }

  /** Reports that are complete, and stops, are told apart by what the client hears. */
  lemma HeardApart(x: Option<Usage>, y: Option<Usage>)
    requires x.Some? ==> Complete(x.value)
    requires y.Some? ==> Complete(y.value)
    ensures UsageOf(x) == UsageOf(y) <==> x == y
  {
    if x.Some? { UsageRoundTrip(x.value); }
    if y.Some? { UsageRoundTrip(y.value); }
    hide EncodeUsage, DecodeUsage;
  }

  lemma StopsApart(x: string, y: string)
    requires Canonical(x) && Canonical(y)
    ensures FinishOf(x) == FinishOf(y) <==> x == y
  {
    StopRoundTrip(x);
    StopRoundTrip(y);
    hide DenormalizeStop, NormalizeStop;
  }

  lemma {:induction false} LatestAreDecoded(events: seq<StreamEvent>)
    requires Decodable(events)
    ensures Canonical(LatestStop(events))
    ensures LatestUsage(events).Some? ==> Complete(LatestUsage(events).value)
  {
    if events != [] {
      DecodablePrefix(events);
      LatestAreDecoded(events[..|events| - 1]);
    }
  }

  /**
    For every body and every client: the aggregated answer exists if and only if the body
    decodes, and then the last finish reason heard is the answer's if and only if the
    relay decodes no later stop than the aggregator, and the last usage heard is the
    answer's if and only if the last report decoded is the merged one.
   */
  lemma RelayedEndEqualsAggregated(lines: seq<Line>, c: Client, parse: Parser, show: Printer)
    ensures var s := AggregateLines(Blank, lines);
            && (s.Ok? <==> AllDecode(lines))
            && (s.Ok? ==>
                  var ending := EndOf(RelayLines(Opening, lines, c).enc.out);
                  var content := Footed(FinalContent(s.value.agg, parse), c.hasWebSearch, s.value.results);
                  var answer := AnswerOf(Final(s.value.agg, parse).(content := content), show);
                  var heard := HeardEvents(lines, c);
                  && (ending.finish == answer.finishReason <==> LatestStop(heard) == LatestStop(Delivered(lines)))
                  && (ending.usage == answer.usage <==> LatestUsage(heard) == s.value.agg.usage))
  {
    var heard, own := HeardEvents(lines, c), Delivered(lines);
    AggregateIsFold(Blank, lines);
    FooterAgreement.RelayIsRun(Opening, lines, c);
    RunEnds(OInit, NamedAll(Cued(lines, c, []), c));
    NamesUnnoted(Unheard, Cued(lines, c, []), c);
    CuedUnnoted(Unheard, lines, c, []);
    LinesDecodable(lines);
    LastIsHeard(heard);
    LatestAreDecoded(heard);
    LatestAreDecoded(own);
    AggregatedStop(own);
    LastIsMerged(own);
    HeardApart(LatestUsage(heard), ApplyAll(Empty, own).usage);
    StopsApart(LatestStop(heard), LatestStop(own));
    hide RelayLines, ORun, NoteAll, NamedAll, Cued, Delivered, AllEvents, LatestStop, LatestUsage, ApplyAll, FinishOf,
      UsageOf, Decodable, RepeatsDetails, FinalContent, Footed, AggregateLines, AllDecode, MessageOf;
  }

  /**
    With web search, or when sources lines carry nothing else, the finish reasons agree,
    and the usages exactly when the last report repeats the details.
   */
  lemma EndAgreesUpToDetails(lines: seq<Line>, c: Client, parse: Parser, show: Printer)
    requires AllDecode(lines) && (c.hasWebSearch || SourcesOnly(lines))
    ensures var s := AggregateLines(Blank, lines);
            && s.Ok?
            && var ending := EndOf(RelayLines(Opening, lines, c).enc.out);
               var content := Footed(FinalContent(s.value.agg, parse), c.hasWebSearch, s.value.results);
               var answer := AnswerOf(Final(s.value.agg, parse).(content := content), show);
               && ending.finish == answer.finishReason
               && (ending.usage == answer.usage <==> RepeatsDetails(Delivered(lines)))
  {
    RelayedEndEqualsAggregated(lines, c, parse, show);
    AggregateIsFold(Blank, lines);
    LinesDecodable(lines);
    LastIsMerged(Delivered(lines));
    if SourcesOnly(lines) { Reading.QuietSources(lines); }
    hide SourcesOnly, EndOf, RelayLines, AnswerOf, Delivered, AllEvents, LatestStop, LatestUsage, ApplyAll,
      RepeatsDetails, FinalContent, Footed, AggregateLines, AllDecode, Decodable;
  }
}
