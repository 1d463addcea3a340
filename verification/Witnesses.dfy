/**
  One concrete input for each way the translators disagree or fail: chunks an upstream
  may send, or a request a client may make.
 */
module Witnesses {
  import opened Wrappers
  import opened JsonValues
  import opened Types
  import opened OpenAIStream
  import opened AnthropicEncoder
  import opened AnthropicClient
  import opened Aggregate
  import Agreement
  import AnthropicRelay
  import Bookkeeping
  import ContentConservation
  import Delivery
  import Discipline
  import Distinct
  import EndingAgreement
  import FooterAgreement
  import Grammar
  import OpenAIClient
  import OpenAIRelay
  import Parameters
  import Reading
  import Request
  import RequestFixpoint
  import SearchAgreement
  import SearchInjection
  import SourcesArguments
  import ToolPairing
  import WebSearch

  // ----- chunks -----

  function ToolChunk(entries: seq<StreamToolCall>): Chunk {
    Chunk("m", "gpt", [Choice(NoDelta.(toolCalls := entries), None)], None)
  }

  function StopChunk(reason: string): Chunk {
    Chunk("m", "gpt", [Choice(NoDelta, Some(reason))], None)
  }

  function UsageChunk(prompt: int, completion: int): Chunk {
    Chunk("m", "gpt", [], Some(RawUsage(prompt, completion, prompt + completion, None, None, None, None)))
  }

  function Ev(body: EventBody): StreamEvent {
    StreamEvent("m", "gpt", body)
  }

  function Report(input: int, output: int): Usage {
    Usage(Some(input), Some(output), Some(input + output), None, None, None)
  }

  lemma DecodeTwo(a: Chunk, b: Chunk)
    ensures DecodeAll([a, b]) == DecodeChunk(a) + DecodeChunk(b)
  {
    DecodeSingle(a);
    DecodeSingle(b);
    DecodeAllAppend([a], [b]);
    assert [a, b] == [a] + [b];
  }

  lemma DecodeThree(a: Chunk, b: Chunk, c: Chunk)
    ensures DecodeAll([a, b, c]) == DecodeChunk(a) + DecodeChunk(b) + DecodeChunk(c)
  {
    DecodeTwo(a, b);
    DecodeSingle(c);
    DecodeAllAppend([a, b], [c]);
    assert [a, b, c] == [a, b] + [c];
  }

  /** One entry that starts a call, one that only carries arguments. */
  lemma EntriesDecode(index: int, id: string, name: string, other: int, arguments: string)
    requires id != "" && arguments != ""
    ensures DecodeChunk(ToolChunk([StreamToolCall(index, id, name, "")])) == [Ev(ToolCallStart(index, id, name))]
    ensures DecodeChunk(ToolChunk([StreamToolCall(other, "", "", arguments)])) == [Ev(ToolCallDelta(other, arguments))]
  {
    var start, more := StreamToolCall(index, id, name, ""), StreamToolCall(other, "", "", arguments);
    assert [start][..0] == [] && [more][..0] == [];
    assert ToolEvents(ToolChunk([start]), [start]) == [Ev(ToolCallStart(index, id, name))];
    assert ToolEvents(ToolChunk([more]), [more]) == [Ev(ToolCallDelta(other, arguments))];
  }

  // ----- tool calls -----

  /** Call 0 is started, then arguments arrive for call 1, which never was. */
  const Stray := [ToolChunk([StreamToolCall(0, "a", "f", "")]), ToolChunk([StreamToolCall(1, "", "", "{}")])]

  const StartA := Ev(ToolCallStart(0, "a", "f"))

  const MoreB := Ev(ToolCallDelta(1, "{}"))

  lemma StrayDecodes()
    ensures DecodeAll(Stray) == [StartA, MoreB]
  {
    EntriesDecode(0, "a", "f", 1, "{}");
    DecodeTwo(Stray[0], Stray[1]);
    hide DecodeAll, DecodeChunk;
  }

  lemma StrayIsSeen()
    ensures !Agreement.StrayFree([StartA, MoreB], {}, false)
  {
    var none: set<int> := {};
    assert [StartA, MoreB][1..] == [MoreB] && none + {0} == {0};
    assert Agreement.Stray(MoreB.body, {0}, true) && !Agreement.StrayFree([MoreB], {0}, true);
  }

  /** The streaming client's argument strings differ from the aggregated ones. */
  lemma StrayDeltaMisleads()
    ensures var events := DecodeAll(Stray);
            var tools, calls := ToolsOf(Blocks(Run(Init, events).out)), ApplyAll(Empty, events).toolCalls;
            Agreement.SameCalls(tools, calls) && !Agreement.SameArguments(tools, calls)
  {
    StrayDecodes();
    StrayIsSeen();
    Agreement.StreamedEqualsAggregated([StartA, MoreB]);
    hide DecodeAll, DecodeChunk, Run, ApplyAll, Blocks, ToolsOf, Agreement.StrayFree, Agreement.SameArguments;
  }

  /** Calls 0 and 1 are started, then arguments arrive for call 0. */
  const Interleaved := [ToolChunk([StreamToolCall(0, "a", "f", "")]), ToolChunk([StreamToolCall(1, "b", "g", "")]),
                        ToolChunk([StreamToolCall(0, "", "", "{}")])]

  const StartB := Ev(ToolCallStart(1, "b", "g"))

  const MoreA := Ev(ToolCallDelta(0, "{}"))

  lemma InterleavedDecodes()
    ensures DecodeAll(Interleaved) == [StartA, StartB, MoreA]
  {
    EntriesDecode(0, "a", "f", 0, "{}");
    EntriesDecode(1, "b", "g", 0, "{}");
    DecodeThree(Interleaved[0], Interleaved[1], Interleaved[2]);
    hide DecodeAll, DecodeChunk;
  }

  lemma InterleavedWatched()
    ensures !Discipline.Disciplined([StartA, StartB, MoreA])
  {
    var events := [StartA, StartB, MoreA];
    assert events[1..] == [StartB, MoreA] && [StartB, MoreA][1..] == [MoreA] && [MoreA][1..] == [];
    var a := Discipline.WatchStep(Discipline.Fresh, StartA);
    var b := Discipline.WatchStep(a, StartB);
    assert Discipline.WatchStep(b, MoreA).Broken?;
    hide Discipline.WatchStep;
    var end := Discipline.WatchStep(b, MoreA);
    assert Discipline.WatchAll(b, [MoreA]) == Discipline.WatchAll(end, []) == end;
    assert Discipline.WatchAll(a, [StartB, MoreA]) == end;
    assert Discipline.WatchAll(Discipline.Fresh, events) == end;
  }

  lemma InterleavedStarted()
    ensures Agreement.StartedFirst([StartA, StartB, MoreA], {})
  {
    assert [StartA, StartB, MoreA][1..] == [StartB, MoreA] && [StartB, MoreA][1..] == [MoreA] && [MoreA][1..] == [];
    var none: set<int> := {};
    assert none + {0} == {0} && {0} + {1} == {0, 1};
    assert Agreement.StartedFirst([MoreA], {0, 1});
    assert Agreement.StartedFirst([StartB, MoreA], {0});
  }

  /** The calls agree all the same, but the stream is no grammatical message: a delta names a closed block. */
  lemma InterleavingBreaksGrammar()
    ensures var events := DecodeAll(Interleaved);
            && Agreement.StartedFirst(events, {})
            && !Grammar.Grammatical(Finish(Run(Init, events)).out)
  {
    InterleavedDecodes();
    InterleavedWatched();
    InterleavedStarted();
    Discipline.StreamIsGrammatical([StartA, StartB, MoreA]);
    hide *;
  }

  // ----- the closing delta -----

  /** A report, the stop, and a later report with other counts. */
  const Recounted := [UsageChunk(1, 1), StopChunk("stop"), UsageChunk(7, 9)]

  const First := Ev(UsageFinal(Some(Report(1, 1))))

  const Stop := Ev(MessageStop("end_turn"))

  const Last := Ev(UsageFinal(Some(Report(7, 9))))

  lemma RecountedDecodes()
    ensures DecodeAll(Recounted) == [First, Stop, Last]
  {
    DecodeThree(Recounted[0], Recounted[1], Recounted[2]);
    StopChunkDecodes();
    hide DecodeAll, DecodeChunk;
  }

  lemma RecountedTells()
    ensures Bookkeeping.Telling([First, Stop, Last]) == [First, Stop]
    ensures Bookkeeping.LatestUsage([First, Stop]) == Some(Report(1, 1)) &&
            Bookkeeping.LatestStop([First, Stop]) == "end_turn"
    ensures Bookkeeping.SawUsage([First, Stop, Last])
  {
    assert [First, Stop, Last][..2] == [First, Stop] && [First, Stop][..1] == [First] && [First][..0] == [];
    assert Bookkeeping.SawUsage([First]) && !Bookkeeping.Completed([First]);
    assert Bookkeeping.SawUsage([First, Stop]) && Bookkeeping.Completes([First, Stop]);
    assert Bookkeeping.Completed([First, Stop]);
  }

  lemma UsageAfter(a: Agg, ev: StreamEvent)
    ensures Apply(a, ev).usage ==
            if ev.body.UsageFinal? && ev.body.usage.Some?
            then Some(MergeUsage(a.usage, ev.body.usage.value)) else a.usage
  {
  }

  lemma RecountedAggregates()
    ensures ApplyAll(Empty, [First, Stop, Last]).usage == Some(Report(7, 9))
  {
    assert MergeUsage(None, Report(1, 1)) == Report(1, 1) &&
           MergeUsage(Some(Report(1, 1)), Report(7, 9)) == Report(7, 9);
    assert ApplyAll(Empty, []) == Empty;
    assert [] + [First] == [First] && [First] + [Stop] == [First, Stop] &&
           [First, Stop] + [Last] == [First, Stop, Last];
    hide *;
    ApplyAllSnoc(Empty, [], First);
    ApplyAllSnoc(Empty, [First], Stop);
    ApplyAllSnoc(Empty, [First, Stop], Last);
    UsageAfter(Empty, First);
    UsageAfter(ApplyAll(Empty, [First]), Stop);
    UsageAfter(ApplyAll(Empty, [First, Stop]), Last);
  }

  /** The one delta says (1, 1) while the aggregate holds (7, 9). */
  lemma LaterReportIsNotTold()
    ensures var events := DecodeAll(Recounted);
            && Bookkeeping.MessageDeltas(Finish(Run(Init, events)).out) ==
               [MessageDelta("end_turn", UsagePayload(1, 1, None, None))]
            && ApplyAll(Empty, events).usage == Some(Report(7, 9))
  {
    RecountedDecodes();
    RecountedTells();
    RecountedAggregates();
    Bookkeeping.MessageDeltaOnce([First, Stop, Last]);
    hide DecodeAll, DecodeChunk, Run, Finish, ApplyAll, Bookkeeping.MessageDeltas, Bookkeeping.Telling,
      Bookkeeping.LatestUsage, Bookkeeping.LatestStop, Bookkeeping.SawUsage, Bookkeeping.Completed;
  }

  lemma StopChunkDecodes()
    ensures DecodeChunk(StopChunk("stop")) == [Ev(MessageStop("end_turn"))]
    ensures forall p, q :: DecodeChunk(UsageChunk(p, q)) == [Ev(UsageFinal(Some(Report(p, q))))]
  {
  }

  // ----- footers -----

  const Found := [WebSearch.Source("web_search", ["u"], [])]

  const Captured := Data(true, Found, None)

  const Stopped := Data(true, [], Some(StopChunk("stop")))

  /** Sources, and the stop twice. */
  const StoppedTwice := [Captured, Stopped, Stopped, DoneMark]

  lemma FoundOne()
    ensures WebSearch.Parsed(Found) == [WebSearchResult("u", "")] && WebSearch.Footer(WebSearch.Parsed(Found)) != ""
    ensures WebSearch.Parsed([]) == []
  {
    assert Found[..0] == [];
    assert WebSearch.SearchUrls(Found) == ["u"] && WebSearch.SearchUrls([]) == [];
    assert ["u"][..0] == [];
    assert Distinct.FirstSeen([]) == [] && Distinct.FirstSeen(["u"]) == ["u"];
    assert WebSearch.AllMetadata(Found) == [] && WebSearch.LastTitle([], "u") == "";
    hide WebSearch.SearchUrls, WebSearch.AllMetadata, WebSearch.LastTitle, Distinct.FirstSeen;
  }

  lemma StoppedLines()
    ensures LineEvents(Stopped) == [Stop] && !IsSources(Stopped) && IsSources(Captured)
    ensures StoppedTwice == [Captured] + ([Stopped] + ([Stopped] + [DoneMark]))
  {
    FoundOne();
    StopChunkDecodes();
    hide DecodeChunk, WebSearch.Parsed, WebSearch.Footer;
  }

  /** How a first line enters into what is asked of the lines. */
  lemma FirstLine(line: Line, rest: seq<Line>, results: seq<WebSearchResult>)
    requires line.Data?
    ensures AllDecode(rest) ==> AllDecode([line] + rest)
    ensures FooterAgreement.NoSources(rest) && !IsSources(line) ==> FooterAgreement.NoSources([line] + rest)
    ensures FooterAgreement.SourcesBeforeStop(rest) && FooterAgreement.NoSources(rest) ==>
              FooterAgreement.SourcesBeforeStop([line] + rest)
    ensures OpenAIRelay.Found([line] + rest, results) ==
            OpenAIRelay.Found(rest, if IsSources(line) then WebSearch.Parsed(line.sources) else results)
  {
    assert ([line] + rest)[1..] == rest;
    hide WebSearch.Parsed, IsSources, LineEvents;
  }

  lemma StoppedTwiceShape()
    ensures AllDecode(StoppedTwice) && FooterAgreement.SourcesBeforeStop(StoppedTwice)
    ensures OpenAIRelay.Found(StoppedTwice, []) == WebSearch.Parsed(Found)
  {
    var end, rs := [DoneMark], WebSearch.Parsed(Found);
    StoppedLines();
    assert AllDecode(end) && FooterAgreement.NoSources(end) && FooterAgreement.SourcesBeforeStop(end);
    assert OpenAIRelay.Found(end, rs) == rs;
    hide *;
    FirstLine(Stopped, end, rs);
    FirstLine(Stopped, [Stopped] + end, rs);
    FirstLine(Captured, [Stopped] + ([Stopped] + end), []);
  }

  /** The footer is streamed twice and aggregated once. */
  lemma RepeatedStopRepeatsFooter(c: Types.Client, parse: Parser, show: OpenAIRelay.Printer)
    requires c.hasWebSearch
    ensures var s := OpenAIRelay.AggregateLines(OpenAIRelay.Blank, StoppedTwice);
            && s.Ok?
            && var reply := OpenAIClient.ReplyTo(OpenAIRelay.RelayLines(OpenAIRelay.Opening, StoppedTwice, c).enc.out);
               var content := OpenAIRelay.Footed(FinalContent(s.value.agg, parse), true, s.value.results);
               reply.content != OpenAIClient.OrEmpty(OpenAIRelay.MessageOf(content, show).content)
  {
    FoundOne();
    StoppedTwiceShape();
    TwoFeet(c, WebSearch.Footer(WebSearch.Parsed(Found)));
    FooterAgreement.SettledSourcesAgree(StoppedTwice, c, parse, show);
    hide *;
  }

  /** How a first line enters into the score. */
  lemma FirstBars(line: Line, rest: seq<Line>, c: Types.Client, results: seq<WebSearchResult>)
    requires line.Data? && c.hasWebSearch
    ensures FooterAgreement.Score([line] + rest, c, results) ==
            if IsSources(line) then FooterAgreement.Score(rest, c, WebSearch.Parsed(line.sources))
            else
              FooterAgreement.Bars(LineEvents(line), WebSearch.Footer(results)) +
              FooterAgreement.Score(rest, c, results)
  {
    assert ([line] + rest)[1..] == rest;
    hide WebSearch.Parsed, IsSources, LineEvents, WebSearch.Footer;
  }

  lemma TwoFeet(c: Types.Client, f: string)
    requires c.hasWebSearch && f == WebSearch.Footer(WebSearch.Parsed(Found)) && f != ""
    ensures FooterAgreement.Feet(FooterAgreement.Score(StoppedTwice, c, [])) == [f, f]
  {
    var end, rs, bar := [DoneMark], WebSearch.Parsed(Found), FooterAgreement.Foot(f);
    StoppedLines();
    assert [Stop][1..] == [] && FooterAgreement.Bars([Stop], f) == [bar];
    assert FooterAgreement.Score(end, c, rs) == [];
    assert [bar, bar][1..] == [bar] && [bar][1..] == [];
    assert FooterAgreement.Feet([bar]) == [f] && FooterAgreement.Feet([bar, bar]) == [f, f];
    hide *;
    FirstBars(Stopped, end, c, rs);
    FirstBars(Stopped, [Stopped] + end, c, rs);
    FirstBars(Captured, [Stopped] + ([Stopped] + end), c, []);
    assert [bar] + ([bar] + []) == [bar, bar];
  }

  // ----- bodies -----

  /** A data line that is no sources line. */
  function Sent(chunk: Chunk): Line {
    Data(true, [], Some(chunk))
  }

  lemma SentLine(chunk: Chunk)
    ensures !IsSources(Sent(chunk)) && LineEvents(Sent(chunk)) == DecodeChunk(chunk)
  {
    FoundOne();
    hide WebSearch.Parsed;
  }

  lemma OneLine(line: Line)
    requires line.Data?
    ensures AllEvents([line]) == LineEvents(line) && Delivered([line]) == EventsOf(line)
    ensures Reading.SourcesSay([line]) == if IsSources(line) then Reading.Reads(LineEvents(line)) else Reading.Silent
    ensures AllDecode([line])
  {
    assert [line][1..] == [];
    Reading.PlusSilent(if IsSources(line) then Reading.Reads(LineEvents(line)) else Reading.Silent);
    hide IsSources, LineEvents, Reading.Reads, Reading.Plus;
  }

  /** Text on a sources line. */
  const Smuggled := Data(true, Found, Some(Chunk("m", "gpt", [Choice(NoDelta.(content := Some("x")), None)], None)))

  lemma SmuggledReads()
    ensures IsSources(Smuggled) && Reading.Reads(LineEvents(Smuggled)).text == "x"
  {
    hide *;
    SmuggledLine();
    OneRead("x");
  }

  lemma SmuggledLine()
    ensures IsSources(Smuggled) && LineEvents(Smuggled) == [Ev(TextDelta("x"))]
  {
    FoundOne();
    TextDecodes();
    hide WebSearch.Parsed, DecodeChunk;
  }

  lemma OneRead(text: string)
    ensures Reading.Reads([Ev(TextDelta(text))]).text == text
  {
    assert [Ev(TextDelta(text))][1..] == [];
  }

  lemma TextDecodes()
    ensures DecodeChunk(Smuggled.chunk.value) == [Ev(TextDelta("x"))]
  {
  }

  /** A client without web search reads the text, the aggregator does not. */
  lemma SourcesTextIsStreamedOnly(c: Client)
    requires !c.hasWebSearch
    ensures var r := OpenAIRelay.AggregateLines(OpenAIRelay.Blank, [Smuggled]);
            && r.Ok?
            && var relay := AnthropicRelay.RelayLines(AnthropicRelay.Opening, [Smuggled], c);
               TextOf(Blocks(relay.enc.out)) != Join(r.value.agg.textParts)
  {
    SmuggledReads();
    OneLine(Smuggled);
    assert Delivery.Received([Smuggled], c) == [Smuggled];
    hide *;
    Delivery.RelayedReadsAsAggregated([Smuggled], c);
  }

  /** A call is started, and its arguments never arrive. */
  const Bare := Sent(ToolChunk([StreamToolCall(0, "a", "f", "")]))

  lemma BareIsKept()
    ensures LineEvents(Bare) == [StartA] && !IsSources(Bare)
    ensures ApplyAll(Empty, [StartA]).toolCalls == [Call(0, "a", "f", "")]
  {
    EntriesDecode(0, "a", "f", 0, "{}");
    SentLine(ToolChunk([StreamToolCall(0, "a", "f", "")]));
    hide DecodeChunk;
    assert [StartA][1..] == [];
  }

  /** The relayed call has no arguments, the aggregated one has printed ones. */
  lemma MissingArgumentsDiffer(c: Client, parse: Parser, show: OpenAIRelay.Printer)
    requires FooterAgreement.Lawful(parse, show)
    ensures var s := OpenAIRelay.AggregateLines(OpenAIRelay.Blank, [Bare]);
            && s.Ok?
            && var calls := OpenAIClient.ReplyTo(OpenAIRelay.RelayLines(OpenAIRelay.Opening, [Bare], c).enc.out).calls;
               var content := OpenAIRelay.Footed(FinalContent(s.value.agg, parse), c.hasWebSearch, s.value.results);
               var message := OpenAIRelay.MessageOf(content, show);
               && FooterAgreement.SameNames(calls, message.toolCalls)
               && !FooterAgreement.SameArguments(calls, message.toolCalls)
  {
    BareIsKept();
    OneLine(Bare);
    BareAddsNothing();
    OpenAIRelay.AggregateIsFold(OpenAIRelay.Blank, [Bare]);
    assert EventsOf(Bare) == [StartA] && Reading.Silent.calls == [];
    assert OpenAIRelay.Blank.agg == Empty && !OpenAIRelay.Blank.done;
    hide *;
    FooterAgreement.RelayedCallsEqualAggregated([Bare], c, parse, show);
    FooterAgreement.PrintedArgumentsAgree("", parse, show);
    var kept := ApplyAll(Empty, [StartA]).toolCalls;
    assert kept[0] in kept && !FooterAgreement.Reprints(kept[0].arguments, parse, show);
  }

  lemma BareAddsNothing()
    ensures SourcesArguments.SourcesAddNothing([Bare], {})
  {
    BareIsKept();
    assert [Bare][1..] == [];
    hide LineEvents, IsSources;
  }

  /** A report with a detail, then one without. */
  const Detailed := Sent(Chunk("m", "gpt", [],
    Some(RawUsage(1, 1, 2, None, None, None, Some(CompletionDetails(Some(5)))))))

  const Undetailed := Sent(UsageChunk(7, 9))

  const Detail := Report(1, 1).(reasoning := Some(5))

  lemma DetailedDecodes()
    ensures LineEvents(Detailed) == [Ev(UsageFinal(Some(Detail)))] && !IsSources(Detailed)
    ensures LineEvents(Undetailed) == [Ev(UsageFinal(Some(Report(7, 9))))] && !IsSources(Undetailed)
  {
    StopChunkDecodes();
    SentLine(Detailed.chunk.value);
    SentLine(UsageChunk(7, 9));
  }

  lemma DetailNotRepeated()
    ensures !EndingAgreement.RepeatsDetails([Ev(UsageFinal(Some(Detail))), Ev(UsageFinal(Some(Report(7, 9))))])
  {
    var a, b := Ev(UsageFinal(Some(Detail))), Ev(UsageFinal(Some(Report(7, 9))));
    assert [a, b][..1] == [a] && [a][..0] == [];
    assert Reports([a]) == [Detail];
    assert Reports([a, b]) == [Detail] + [Report(7, 9)];
    assert Bookkeeping.LatestUsage([a, b]) == Some(Report(7, 9));
    hide Reports, Bookkeeping.LatestUsage;
    var get := (u: Usage) => u.reasoning;
    FieldSnoc([], Detail, get);
    FieldSnoc([Detail], Report(7, 9), get);
    Unit([Detail]);
    hide LastSome;
    assert LastSome(Field([Detail] + [Report(7, 9)], get)) == Some(5);
  }

  /** The detail is in the answer, but not in the last usage of the stream. */
  lemma DetailIsNotRepeated(c: Client, parse: Parser, show: OpenAIRelay.Printer)
    ensures var body := [Detailed, Undetailed];
            var s := OpenAIRelay.AggregateLines(OpenAIRelay.Blank, body);
            && s.Ok?
            && var ending := EndingAgreement.EndOf(OpenAIRelay.RelayLines(OpenAIRelay.Opening, body, c).enc.out);
               ending.usage != OpenAIRelay.AnswerOf(Final(s.value.agg, parse), show).usage
  {
    var body := [Detailed, Undetailed];
    DetailedBody();
    DetailNotRepeated();
    var s := OpenAIRelay.AggregateLines(OpenAIRelay.Blank, body);
    hide *;
    EndingAgreement.EndAgreesUpToDetails(body, c, parse, show);
    SameUsage(s.value.agg, parse, show,
              OpenAIRelay.Footed(FinalContent(s.value.agg, parse), c.hasWebSearch, s.value.results));
  }

  lemma DetailedBody()
    ensures var body := [Detailed, Undetailed];
            && SourcesOnly(body) && AllDecode(body)
            && Delivered(body) == [Ev(UsageFinal(Some(Detail))), Ev(UsageFinal(Some(Report(7, 9))))]
  {
    var body := [Detailed, Undetailed];
    DetailedDecodes();
    OneLine(Undetailed);
    assert body[1..] == [Undetailed];
    hide LineEvents, IsSources;
    assert Delivered(body) == [Ev(UsageFinal(Some(Detail)))] + [Ev(UsageFinal(Some(Report(7, 9))))];
  }

  lemma SameUsage(a: Agg, parse: Parser, show: OpenAIRelay.Printer, content: seq<Content>)
    ensures OpenAIRelay.AnswerOf(Final(a, parse), show).usage ==
            OpenAIRelay.AnswerOf(Final(a, parse).(content := content), show).usage
  {
    hide FinalContent;
  }

  /** Sources, and no text: the answer shows the search, the stream does not. */
  lemma SilentSearchIsNotShown(c: Client, parse: Parser)
    requires c.hasWebSearch
    ensures var r := OpenAIRelay.AggregateLines(OpenAIRelay.Blank, [Captured]);
            && r.Ok?
            && var stream := AnthropicRelay.RelayLines(AnthropicRelay.Opening, [Captured], c).enc.out;
               var answer := SearchAgreement.SearchFirst(FinalContent(r.value.agg, parse), c, r.value.results);
               SearchAgreement.SearchPart(SearchAgreement.Layout(stream)) !=
               SearchAgreement.SearchPart(SearchAgreement.AnswerLayout(answer))
  {
    StoppedLines();
    OneLine(Captured);
    assert [Captured][1..] == [] && SearchInjection.Heard([Captured]) == [];
    assert Delivery.Encoded([Captured], c) == [] && !SearchInjection.SpeaksText([]);
    hide *;
    SearchAgreement.SearchAgainstAnswer([Captured], c, parse);
  }

  // ----- requests -----

  function Plain(messages: seq<Request.Message>): Request.ChatRequest {
    Request.ChatRequest("gpt", false, [], messages, [], None, Parameters.ParamsValue(None, None, None, [], None, None))
  }

  const Said := Request.Message("user", [Request.TextBlock(Some("a"))])

  const Late := Request.Message("system", [Request.TextBlock(Some("b"))])

  /** A system message behind a user's: what is sent is not what is sent after decoding. */
  lemma LateSystemMoves(to: Parameters.Upstream)
    requires to.model != ""
    ensures var w := Request.Encode(Plain([Said, Late]), to);
            Request.Decode(w).Ok? && Request.Encode(Request.Decode(w).value, to) != w
  {
    var w := Request.Encode(Plain([Said, Late]), to);
    LateSystemSent(to);
    assert !RequestFixpoint.SystemsLead(w.messages) by {
      assert w.messages[1].role == "system" && w.messages[0].role != "system";
    }
    RequestFixpoint.WireFixpoint(Plain([Said, Late]), to);
  }

  lemma OneText(role: string, text: string)
    requires role != "tool"
    ensures Request.EncodeMessage(Request.Message(role, [Request.TextBlock(Some(text))])) ==
            [Request.Plain(role, Request.Str(text), [], "")]
  {
    var blocks := [Request.TextBlock(Some(text))];
    assert blocks[..0] == [];
    assert Request.PartsOf(blocks) == [Request.TextPart(text)];
    assert Request.CallsOf(blocks) == [];
    assert Request.ResultsOf(blocks) == [];
    hide Request.PartsOf, Request.CallsOf, Request.ResultsOf;
  }

  lemma TwoMessages(a: Request.Message, b: Request.Message)
    ensures Request.EncodeMessages([a, b]) == Request.EncodeMessage(a) + Request.EncodeMessage(b)
  {
    assert [a, b][..1] == [a] && [a][..0] == [];
    hide Request.EncodeMessage;
    assert Request.EncodeMessages([a]) == [] + Request.EncodeMessage(a) == Request.EncodeMessage(a);
  }

  lemma LateSystemSent(to: Parameters.Upstream)
    ensures Request.Encode(Plain([Said, Late]), to).messages ==
            [Request.Plain("user", Request.Str("a"), [], ""), Request.Plain("system", Request.Str("b"), [], "")]
  {
    OneText("user", "a");
    OneText("system", "b");
    TwoMessages(Said, Late);
    assert Request.EncodeSystem([]) == [];
    hide Request.EncodeMessage, Request.EncodeMessages, Request.EncodeSystem, Parameters.EncodeSettings,
      Request.InferTools;
  }

  /** A user's message with a result and a call, and nothing else. */
  const Hiding := Request.Message("user",
    [Request.ToolResultBlock(Some(Request.ToolResult("r", [], false))),
        Request.ToolCallBlock(Some(Request.ToolCall("c", "f", JNull)))])

  /** Its call is not sent. */
  lemma HiddenCallIsLost()
    ensures ToolPairing.WireCalls(Request.WireMessages(Plain([Hiding]))) != ToolPairing.AllCallIds([Hiding])
  {
    var blocks := Hiding.content;
    assert blocks[..1][..0] == [] && blocks[..1] == [blocks[0]];
    assert Request.PartsOf(blocks) == [] && |Request.ResultsOf(blocks)| == 1;
    assert ToolPairing.CallIds(blocks) == ["c"];
    assert ToolPairing.HidesCalls(Hiding);
    assert Hiding in [Hiding];
    ToolPairing.IdsAreConserved(Plain([Hiding]));
  }

  /** An image whose media type has a parameter does not parse back. */
  lemma ParameterisedImageIsLost(data: string)
    ensures Request.ParseDataURI(Request.FormatDataURI(Request.Image("a/b;c", data))) == None
  {
    var mediaType := "a/b;c";
    assert Request.Find(mediaType, ';') == 3 && mediaType[4..][0] == 'c';
    assert !Request.Parseable(mediaType);
    hide *;
    Request.FormattedParses(Request.Image(mediaType, data));
  }

  /** A call, something said, and then the result. */
  const Asking := Request.Message("assistant", [Request.ToolCallBlock(Some(Request.ToolCall("c", "f", JNull)))])

  const Answering := Request.Message("user", [Request.ToolResultBlock(Some(Request.ToolResult("c", [], false)))])

  /** The result is sent behind what was said, out of reach of its call. */
  lemma LateResultIsUnpaired()
    ensures !ToolPairing.Answered(Request.WireMessages(Plain([Asking, Said, Answering])))
  {
    var messages, blocks := [Asking, Said, Answering], Answering.content;
    assert blocks[..0] == [] && Said.content[..0] == [];
    assert ToolPairing.ResultIds(blocks) == ["c"] && "c" in ToolPairing.ResultIds(blocks);
    assert Request.PartsOf(Said.content) == [Request.TextPart("a")] && !ToolPairing.Silent(Said);
    assert messages[..2] == [Asking, Said];
    assert ToolPairing.Open([Asking, Said]) == [];
    hide *;
    OutOfTurn(messages, "c");
    ToolPairing.PairingSurvives(Plain(messages));
  }

  lemma OutOfTurn(messages: seq<Request.Message>, id: string)
    requires messages != [] && ToolPairing.Open(messages[..|messages| - 1]) == []
    requires messages[|messages| - 1].role == "user" && id in ToolPairing.ResultIds(messages[|messages| - 1].content)
    ensures !ToolPairing.AnswersInTurn(messages)
  {
    hide ToolPairing.ResultIds, ToolPairing.Open;
  }

  /** Text of a tool message that names no call, as it is decoded. */
  const Orphan := Request.Message("tool", [Request.TextBlock(Some("x"))])

  lemma OrphanDecodes()
    ensures Request.DecodeMessages([Request.Plain("tool", Request.Str("x"), [], "")]) ==
            Ok(Request.Conversation([], [Orphan]))
  {
    var blocks, w := Orphan.content, Request.Plain("tool", Request.Str("x"), [], "");
    assert Request.ThinkingOf(w) == [] && Request.CallBlocks([]) == [];
    assert [] + blocks + [] + [] == blocks;
    assert Request.DecodeBlocks(w) == Ok(blocks);
    assert [w][..0] == [] && [w][0] == w && [] + [Orphan] == [Orphan];
    hide Request.DecodeBlocks;
    var nothing := Request.Conversation([], []);
    assert Request.DecodeOne(nothing, w) == Ok(Request.Conversation([], [Orphan]));
    assert Request.DecodeMessages([]) == Ok(nothing);
    hide Request.DecodeOne;
  }

  lemma OrphanIsOne()
    ensures Request.EncodeMessage(Orphan) == [] && !ContentConservation.NoOrphans([Orphan])
  {
    var blocks := Orphan.content;
    assert blocks[..0] == [];
    assert ContentConservation.ResultsIn(blocks) == [] && ContentConservation.BlocksShow(blocks).text == "x";
    assert Request.ResultsOf(blocks) == [];
    assert Orphan in [Orphan];
    hide ContentConservation.ResultsIn, ContentConservation.BlocksShow, Request.ResultsOf, Request.PartsOf,
      Request.CallsOf;
  }

  /** It is decoded, and not sent. */
  lemma OrphanTextIsLost()
    ensures Request.DecodeMessages([Request.Plain("tool", Request.Str("x"), [], "")]) ==
            Ok(Request.Conversation([], [Orphan]))
    ensures Request.EncodeMessage(Orphan) == []
    ensures ContentConservation.Speech(Request.WireMessages(Plain([Orphan]))) !=
            ContentConservation.Plus(ContentConservation.BlocksShow([]), ContentConservation.AllSay([Orphan]))
  {
    OrphanDecodes();
    OrphanIsOne();
    var req := Plain([Orphan]);
    assert req.system == [] && req.messages == [Orphan];
    hide *;
    ContentConservation.NothingIsLost(req);
  }

  /** `max` is sent on as `xhigh`, which is itself sent on. */
  const Chained := Parameters.Upstream("gpt", false,
    Some(Parameters.Capability(["xhigh", "high"], map["max" := "xhigh", "xhigh" := "high"])),
    Parameters.Folding((s: string) => s, (a: string, b: string) => a == b))

  const Thorough := Parameters.ParamsValue(None, None, None, [], Some(Parameters.ReasoningValue("", Some("max"))), None)

  /** The effort sent is not the one sent after decoding. */
  lemma ChainedEffortMovesOn()
    ensures var w := Parameters.EncodeSettings(None, Thorough, Chained);
            && w.effort == Some("xhigh")
            && Parameters.DecodeSettings(w).Ok?
            && var s := Parameters.DecodeSettings(w).value;
               Parameters.EncodeSettings(s.choice, s.params, Chained).effort == Some("high")
  {
    var efforts := Chained.capability.value.allowedEfforts;
    assert efforts[0] == "xhigh" && efforts[1] == "high";
    assert Chained.text.same(efforts[0], "xhigh") && Chained.text.same(efforts[1], "high");
    assert Parameters.Allowed(efforts, "xhigh", Chained.text) && Parameters.Allowed(efforts, "high", Chained.text);
  }
}
