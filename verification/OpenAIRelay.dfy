/**
  The two ways an OpenAI client is answered from one upstream stream: relayed chunk
  by chunk with a sources footer before the stop (server/public_openai.go), or
  aggregated into one response (execute/executor.go) whose text the footer is
  appended to.
 */
module OpenAIRelay {
  import opened Wrappers
  import opened JsonValues
  import opened Types
  import opened WebSearch
  import opened OpenAIStream
  import opened Aggregate

  // ----- relaying -----

  /** `done` also stands for the final `[DONE]` line. */
  datatype Relay = Relay(enc: OEnc, results: seq<WebSearchResult>, usage: Option<Usage>, done: bool)

  const Opening := Relay(OInit, [], None, false)

  function WithFooter(enc: OEnc, footer: string, c: Client): OEnc {
    if footer == "" then enc else OStep(enc, Named(StreamEvent("", "", TextDelta(footer)), c))
  }

  function RelayEvent(r: Relay, ev: StreamEvent, c: Client): Relay {
    var before := if ev.body.MessageStop? then WithFooter(r.enc, Footer(r.results), c) else r.enc;
    r.(enc := OStep(before, Named(ev, c)),
       usage := if ev.body.UsageFinal? && ev.body.usage.Some? then ev.body.usage else r.usage)
  }

  function RelayEvents(r: Relay, events: seq<StreamEvent>, c: Client): Relay
    decreases |events|
  {
    if events == [] then r else RelayEvents(RelayEvent(r, events[0], c), events[1..], c)
  }

  function RelayLine(r: Relay, line: Line, c: Client): Relay {
    if c.hasWebSearch && IsSources(line) then r.(results := Parsed(line.sources))
    else
      match DecodeLine(line)
      case Err(_) => r
      case Ok(d) => RelayEvents(r, d.events, c).(done := d.done)
  }

  function RelayLines(r: Relay, lines: seq<Line>, c: Client): Relay
    decreases |lines|
  {
    if lines == [] || r.done then r else RelayLines(RelayLine(r, lines[0], c), lines[1..], c)
  }

  method StreamOpenAIToOpenAIClient(lines: seq<Line>, c: Client)
    returns (out: seq<Chunk>, usageResult: Option<Usage>, done: bool)
    ensures var r := RelayLines(Opening, lines, c); out == r.enc.out && usageResult == r.usage && done == r.done
  {
    usageResult := None;
    var webSearchResults: seq<WebSearchResult> := [];
    var enc := new OpenAIStreamEncoder();
    out := [];
    done := false;
    var i := 0;
    while i < |lines| && !done
      invariant 0 <= i <= |lines|
      invariant RelayLines(Opening, lines, c) ==
                RelayLines(Relay(enc.Snapshot(out), webSearchResults, usageResult, done), lines[i..], c)
      decreases |lines| - i
    {
      var line := lines[i];
      assert lines[i..][0] == line && lines[i..][1..] == lines[i + 1..];
      i := i + 1;
      var captured := false;
      if c.hasWebSearch && line.Data? && line.atStart {
        var results := ParseOpenWebUISources(line.sources);
        if results != [] {
          webSearchResults := results;
          captured := true;
        }
      }
      if !captured {
        var decoded := DecodeOpenAIStreamLine(line);
        if decoded.Ok? {
          out, usageResult := RelayDecoded(enc, out, decoded.value.events, webSearchResults, usageResult, c);
          done := decoded.value.done;
        }
      }
    }
  }

  method RelayDecoded(enc: OpenAIStreamEncoder, before: seq<Chunk>, events: seq<StreamEvent>,
                      webSearchResults: seq<WebSearchResult>, usageBefore: Option<Usage>, c: Client)
    returns (out: seq<Chunk>, usageResult: Option<Usage>)
    modifies enc
    ensures Relay(enc.Snapshot(out), webSearchResults, usageResult, false) ==
            RelayEvents(Relay(old(enc.Snapshot(before)), webSearchResults, usageBefore, false), events, c)
  {
    out, usageResult := before, usageBefore;
    for k := 0 to |events|
      invariant RelayEvents(Relay(old(enc.Snapshot(before)), webSearchResults, usageBefore, false), events, c) ==
                RelayEvents(Relay(enc.Snapshot(out), webSearchResults, usageResult, false), events[k..], c)
    {
      assert events[k..][0] == events[k] && events[k..][1..] == events[k + 1..];
      var ev := events[k];
      if ev.body.UsageFinal? && ev.body.usage.Some? {
        usageResult := ev.body.usage;
      }
      if ev.body.MessageStop? {
        var footer := FormatWebSearchFooter(webSearchResults);
        if footer != "" {
          out := Emit(enc, out, NormalizeStreamEvent(StreamEvent("", "", TextDelta(footer)), c.responseID, c.model));
        }
      }
      out := Emit(enc, out, NormalizeStreamEvent(ev, c.responseID, c.model));
    }
  }

  /** Encode one event and print it after what was printed before. */
  method Emit(enc: OpenAIStreamEncoder, before: seq<Chunk>, ev: StreamEvent) returns (out: seq<Chunk>)
    modifies enc
    ensures enc.Snapshot(out) == OStep(old(enc.Snapshot(before)), ev)
  {
    OStepAfter(before, enc.Snapshot([]), ev);
    assert before + [] == before;
    var lines := enc.Encode(ev);
    out := before + lines;
  }

  // ----- aggregating -----

  datatype Session = Session(agg: Agg, results: seq<WebSearchResult>, done: bool)

  const Blank := Session(Empty, [], false)

  function AggregateLine(s: Session, line: Line): Result<Session, string> {
    if IsSources(line) then Ok(s.(results := Parsed(line.sources)))
    else
      match DecodeLine(line)
      case Err(e) => Err(e)
      case Ok(d) => Ok(s.(agg := ApplyAll(s.agg, d.events), done := d.done))
  }

  /** The first line that does not decode aborts the aggregation. */
  function AggregateLines(s: Session, lines: seq<Line>): Result<Session, string>
    decreases |lines|
  {
    if lines == [] || s.done then Ok(s)
    else
      match AggregateLine(s, lines[0])
      case Err(e) => Err(e)
      case Ok(t) => AggregateLines(t, lines[1..])
  }

  datatype Aggregated = Aggregated(response: Response, results: seq<WebSearchResult>)

  method AggregateStream(lines: seq<Line>, parse: Parser) returns (r: Result<Aggregated, string>)
    ensures var s := AggregateLines(Blank, lines);
            r == if s.Err? then Err(s.error) else Ok(Aggregated(Final(s.value.agg, parse), s.value.results))
  {
    var state := new StreamAggregateState();
    var done := false;
    var i := 0;
    while i < |lines| && !done
      invariant 0 <= i <= |lines|
      invariant state.Valid() && fresh(state) && forall k :: 0 <= k < |state.toolCalls| ==> fresh(state.toolCalls[k])
      invariant AggregateLines(Blank, lines) ==
                AggregateLines(Session(state.State(), state.webSearchResults, done), lines[i..])
      decreases |lines| - i
    {
      var line := lines[i];
      assert lines[i..][0] == line && lines[i..][1..] == lines[i + 1..];
      i := i + 1;
      var step := AggregateOne(state, line);
      if step.Err? {
        return Err(step.error);
      }
      done := step.value;
    }
    var response := state.Finalize(parse);
    r := Ok(Aggregated(response, state.webSearchResults));
  }

  /** One line of the loop: sources are stored, anything else is decoded and applied. */
  method AggregateOne(state: StreamAggregateState, line: Line) returns (r: Result<bool, string>)
    requires state.Valid()
    modifies state, state.toolCalls
    ensures state.Valid()
    ensures var before := Session(old(state.State()), old(state.webSearchResults), false);
            match AggregateLine(before, line)
            case Err(e) => r == Err(e)
            case Ok(t) => r.Ok? && t == Session(state.State(), state.webSearchResults, r.value)
    ensures forall k :: 0 <= k < |state.toolCalls| ==>
              state.toolCalls[k] in old(state.toolCalls) || fresh(state.toolCalls[k])
  {
    if line.Data? && line.atStart {
      var results := ParseOpenWebUISources(line.sources);
      if results != [] {
        state.SetWebSearchResults(results);
        return Ok(false);
      }
    }
    var decoded := DecodeOpenAIStreamLine(line);
    if decoded.Err? {
      return Err(decoded.error);
    }
    ApplyDecoded(state, decoded.value.events);
    r := Ok(decoded.value.done);
  }

  method ApplyDecoded(state: StreamAggregateState, events: seq<StreamEvent>)
    requires state.Valid()
    modifies state, state.toolCalls
    ensures state.Valid() && state.State() == ApplyAll(old(state.State()), events)
    ensures forall k :: 0 <= k < |state.toolCalls| ==>
              state.toolCalls[k] in old(state.toolCalls) || fresh(state.toolCalls[k])
    ensures state.webSearchResults == old(state.webSearchResults)
  {
    for k := 0 to |events|
      invariant state.Valid()
      invariant forall k :: 0 <= k < |state.toolCalls| ==>
                  state.toolCalls[k] in old(state.toolCalls) || fresh(state.toolCalls[k])
      invariant state.webSearchResults == old(state.webSearchResults)
      invariant ApplyAll(old(state.State()), events) == ApplyAll(state.State(), events[k..])
    {
      assert events[k..][0] == events[k] && events[k..][1..] == events[k + 1..];
      state.ApplyEvent(events[k]);
    }
  }

  /** The results of the last sources line before `[DONE]`. */
  function Found(lines: seq<Line>, current: seq<WebSearchResult>): seq<WebSearchResult>
    decreases |lines|
  {
    if lines == [] || lines[0].DoneMark? then current
    else Found(lines[1..], if IsSources(lines[0]) then Parsed(lines[0].sources) else current)
  }

  /** The aggregator answers if and only if every line before `[DONE]` decodes, having applied what was delivered. */
  lemma {:induction false} AggregateIsFold(s: Session, lines: seq<Line>)
    requires !s.done
    ensures var r := AggregateLines(s, lines);
            && (r.Ok? <==> AllDecode(lines))
            && (r.Ok? ==>
                r.value.agg == ApplyAll(s.agg, Delivered(lines)) && r.value.results == Found(lines, s.results))
    decreases |lines|
  {
    hide ApplyAll, DecodeChunk, Parsed;
    NothingApplied(s.agg);
    if lines != [] {
      var line, rest := lines[0], lines[1..];
      if line.DoneMark? {
        assert AggregateLine(s, line) == Ok(s.(done := true));
      } else if AggregateLine(s, line).Ok? {
        AggregateIsFold(AggregateLine(s, line).value, rest);
        ApplyAllAppend(s.agg, EventsOf(line), Delivered(rest));
      }
    }
  }

  lemma NothingApplied(a: Agg)
    ensures ApplyAll(a, []) == a
  {
  }

  // ----- the aggregated message -----

  function AddFooter(content: seq<Content>, footer: string): seq<Content> {
    if content == [] then [Text(footer)]
    else if content[0].Text? then [Text(content[0].text + footer)] + content[1..]
    else [content[0]] + AddFooter(content[1..], footer)
  }

  function Footed(content: seq<Content>, hasWebSearch: bool, results: seq<WebSearchResult>): seq<Content> {
    if !hasWebSearch || results == [] then content else AddFooter(content, Footer(results))
  }

  lemma {:induction false} AddFooterAt(content: seq<Content>, i: nat, footer: string)
    requires i <= |content| && forall k :: 0 <= k < i ==> !content[k].Text?
    ensures i == |content| ==> AddFooter(content, footer) == content + [Text(footer)]
    ensures i < |content| && content[i].Text? ==>
              AddFooter(content, footer) == content[i := Text(content[i].text + footer)]
  {
    if i > 0 {
      AddFooterAt(content[1..], i - 1, footer);
      assert content == [content[0]] + content[1..];
    }
  }

  method AppendWebSearchFooter(content: seq<Content>, hasWebSearch: bool, results: seq<WebSearchResult>)
    returns (r: seq<Content>)
    ensures r == Footed(content, hasWebSearch, results)
  {
    if !hasWebSearch || |results| == 0 {
      return content;
    }
    var footer := FormatWebSearchFooter(results);
    for i := 0 to |content|
      invariant forall k :: 0 <= k < i ==> !content[k].Text?
    {
      if content[i].Text? {
        AddFooterAt(content, i, footer);
        return content[i := Text(content[i].text + footer)];
      }
    }
    AddFooterAt(content, |content|, footer);
    r := content + [Text(footer)];
  }

  /** A tool call of the client message; its arguments are printed JSON. */
  datatype ClientCall = ClientCall(id: string, name: string, arguments: string)

  /** `content` and `reasoning_content` of the client message; nil is `None`. */
  datatype ClientMessage = ClientMessage(content: Option<string>, reasoning: Option<string>, toolCalls: seq<ClientCall>)

  /** The library's JSON printer, an arbitrary function here. */
  type Printer = Json -> string

  function TextParts(content: seq<Content>): seq<string> {
    if content == [] then []
    else
      var x := content[|content| - 1];
      TextParts(content[..|content| - 1]) + if x.Text? then [x.text] else []
  }

  function ThinkingParts(content: seq<Content>): seq<string> {
    if content == [] then []
    else
      var x := content[|content| - 1];
      ThinkingParts(content[..|content| - 1]) + if x.Thinking? then [x.text] else []
  }

  function CallParts(content: seq<Content>, show: Printer): seq<ClientCall> {
    if content == [] then []
    else
      var x := content[|content| - 1];
      CallParts(content[..|content| - 1], show) +
          if x.ToolUse? then [ClientCall(x.id, x.name, show(x.arguments))] else []
  }

  function Joined(parts: seq<string>): Option<string> {
    if parts == [] then None else Some(Join(parts))
  }

  function MessageOf(content: seq<Content>, show: Printer): ClientMessage {
    ClientMessage(Joined(TextParts(content)), Joined(ThinkingParts(content)), CallParts(content, show))
  }

  method EncodeOpenAIClientMessage(content: seq<Content>, show: Printer) returns (message: ClientMessage)
    ensures message == MessageOf(content, show)
  {
    var textParts: seq<string> := [];
    var thinkingParts: seq<string> := [];
    var toolCalls: seq<ClientCall> := [];
    for i := 0 to |content|
      invariant textParts == TextParts(content[..i])
      invariant thinkingParts == ThinkingParts(content[..i])
      invariant toolCalls == CallParts(content[..i], show)
    {
      assert content[..i + 1][..i] == content[..i];
      match content[i] {
        case Text(text) => textParts := textParts + [text];
        case Thinking(text) => thinkingParts := thinkingParts + [text];
        case ToolUse(id, name, arguments) => toolCalls := toolCalls + [ClientCall(id, name, show(arguments))];
        case Searched(_, _) =>
      }
    }
    assert content[..|content|] == content;
    message := ClientMessage(None, None, toolCalls);
    if |textParts| > 0 {
      message := message.(content := Some(Join(textParts)));
    }
    if |thinkingParts| > 0 {
      message := message.(reasoning := Some(Join(thinkingParts)));
    }
  }

  // ----- the client response -----

  datatype ClientResponse = ClientResponse(
    id: string, model: string, message: ClientMessage, finishReason: Option<string>, usage: Option<RawUsage>)

  /** No stop reason, no finish reason. */
  function FinishOf(stopReason: string): Option<string> {
    var reason := DenormalizeStop(stopReason);
    if reason == "" then None else Some(reason)
  }

  function UsageOf(usage: Option<Usage>): Option<RawUsage> {
    if usage.Some? then Some(EncodeUsage(usage.value)) else None
  }

  function AnswerOf(resp: Response, show: Printer): ClientResponse {
    ClientResponse(resp.id, resp.model, MessageOf(resp.content, show), FinishOf(resp.stopReason), UsageOf(resp.usage))
  }

  method EncodeOpenAIClientResponse(resp: Response, show: Printer) returns (out: ClientResponse)
    ensures out == AnswerOf(resp, show)
  {
    var message := EncodeOpenAIClientMessage(resp.content, show);
    out := ClientResponse(resp.id, resp.model, message, None, None);
    var finishReason := DenormalizeStop(resp.stopReason);
    if finishReason != "" {
      out := out.(finishReason := Some(finishReason));
    }
    if resp.usage.Some? {
      out := out.(usage := Some(EncodeUsage(resp.usage.value)));
    }
  }
}
