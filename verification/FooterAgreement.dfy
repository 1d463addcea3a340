/**
  An OpenAI client is answered from one upstream body in two ways: relayed chunk by
  chunk with a sources footer before each stop, or aggregated into one message the
  footer is appended to. When the two answers agree, for every body and every client.
 */
module FooterAgreement {
  import opened Wrappers
  import opened Types
  import opened WebSearch
  import opened OpenAIStream
  import opened Aggregate
  import opened OpenAIRelay
  import opened OpenAIClient
  import opened Reading
  import SourcesArguments

  // ----- the relay is a run of the encoder -----

  /** The events of one line with the footer put before every stop. */
  function Cue(events: seq<StreamEvent>, footer: string): seq<StreamEvent>
    decreases |events|
  {
    if events == [] then []
    else
      (if events[0].body.MessageStop? && footer != "" then [StreamEvent("", "", TextDelta(footer))] else []) +
      [events[0]] + Cue(events[1..], footer)
  }

  /** What the relay encodes: a search client's sources lines set the footer, any other line is decoded. */
  function Cued(lines: seq<Line>, c: Client, results: seq<WebSearchResult>): seq<StreamEvent>
    decreases |lines|
  {
    if lines == [] || lines[0].DoneMark? then []
    else if c.hasWebSearch && IsSources(lines[0]) then Cued(lines[1..], c, Parsed(lines[0].sources))
    else Cue(LineEvents(lines[0]), Footer(results)) + Cued(lines[1..], c, results)
  }

  lemma ORunAppend(e: OEnc, a: seq<StreamEvent>, b: seq<StreamEvent>)
    ensures ORun(e, a + b) == ORun(ORun(e, a), b)
    decreases |a|
  {
    hide OStep;
    if a == [] {
      Unit(b);
    } else {
      assert (a + b)[1..] == a[1..] + b;
      ORunAppend(OStep(e, a[0]), a[1..], b);
    }
  }

  lemma ORunOne(e: OEnc, ev: StreamEvent)
    ensures ORun(e, [ev]) == OStep(e, ev) && ORun(e, []) == e
  {
    assert ORun(OStep(e, ev), []) == OStep(e, ev);
  }

  lemma RelayEventRuns(r: Relay, ev: StreamEvent, c: Client)
    ensures var t := RelayEvent(r, ev, c);
            t.enc == ORun(r.enc, NamedAll(Cue([ev], Footer(r.results)), c)) && t.results == r.results &&
                t.done == r.done
  {
    var foot := StreamEvent("", "", TextDelta(Footer(r.results)));
    assert Cue([ev], Footer(r.results)) ==
           if ev.body.MessageStop? && Footer(r.results) != "" then [foot, ev] else [ev];
    hide OStep, Footer, Cue;
    ORunOne(r.enc, Named(ev, c));
    ORunOne(r.enc, Named(foot, c));
    ORunOne(OStep(r.enc, Named(foot, c)), Named(ev, c));
    ORunAppend(r.enc, [Named(foot, c)], [Named(ev, c)]);
    assert NamedAll([foot, ev], c) == [Named(foot, c)] + [Named(ev, c)] && NamedAll([ev], c) == [Named(ev, c)];
  }

  lemma CueHead(events: seq<StreamEvent>, footer: string)
    requires events != []
    ensures Cue(events, footer) == Cue([events[0]], footer) + Cue(events[1..], footer)
  {
    assert [events[0]][1..] == [] && Cue([], footer) == [];
  }

  lemma {:induction false} RelayEventsRun(r: Relay, events: seq<StreamEvent>, c: Client)
    ensures var t := RelayEvents(r, events, c);
            t.enc == ORun(r.enc, NamedAll(Cue(events, Footer(r.results)), c)) && t.results == r.results &&
                t.done == r.done
    decreases |events|
  {
    hide RelayEvent, OStep, Footer;
    if events != [] {
      var footer, s := Footer(r.results), RelayEvent(r, events[0], c);
      RelayEventRuns(r, events[0], c);
      RelayEventsRun(s, events[1..], c);
      CueHead(events, footer);
      NamedAppend(Cue([events[0]], footer), Cue(events[1..], footer), c);
      ORunAppend(r.enc, NamedAll(Cue([events[0]], footer), c), NamedAll(Cue(events[1..], footer), c));
    }
  }

  lemma {:induction false} RelayIsRun(r: Relay, lines: seq<Line>, c: Client)
    requires !r.done
    ensures RelayLines(r, lines, c).enc == ORun(r.enc, NamedAll(Cued(lines, c, r.results), c))
    decreases |lines|
  {
    hide LineEvents, Footer, ORun, NamedAll;
    ORunNothing(r.enc, c);
    if lines != [] {
      var line, rest := lines[0], lines[1..];
      LineRuns(r, line, c);
      if !line.DoneMark? {
        RelayIsRun(RelayLine(r, line, c), rest, c);
        if !(c.hasWebSearch && IsSources(line)) {
          var own := Cue(LineEvents(line), Footer(r.results));
          NamedAppend(own, Cued(rest, c, r.results), c);
          ORunAppend(r.enc, NamedAll(own, c), NamedAll(Cued(rest, c, r.results), c));
        }
      }
    }
  }

  lemma ORunNothing(e: OEnc, c: Client)
    ensures ORun(e, NamedAll([], c)) == e
  {
  }

  lemma LineRuns(r: Relay, line: Line, c: Client)
    requires !r.done
    ensures var t := RelayLine(r, line, c);
            if c.hasWebSearch && IsSources(line) then t == r.(results := Parsed(line.sources))
            else
              && t.enc == ORun(r.enc, NamedAll(Cue(LineEvents(line), Footer(r.results)), c))
              && t.results == r.results && t.done == line.DoneMark?
  {
    hide Footer, DecodeChunk, Parsed;
    RelayEventsRun(r, LineEvents(line), c);
    ORunNothing(r.enc, c);
    assert Cue([], Footer(r.results)) == [];
  }

  // ----- what the relay says -----

  /** The events the relay decodes, footers aside. */
  function HeardEvents(lines: seq<Line>, c: Client): seq<StreamEvent> {
    if c.hasWebSearch then Delivered(lines) else AllEvents(lines)
  }

  /** Text as it is delivered: said by the upstream, or a footer at a stop. */
  datatype Bar = Say(text: string) | Foot(text: string)

  function Bars(events: seq<StreamEvent>, footer: string): seq<Bar>
    decreases |events|
  {
    if events == [] then []
    else
      [if events[0].body.MessageStop? then Foot(footer) else Say(BodyReads(events[0].body).text)] +
          Bars(events[1..], footer)
  }

  function Score(lines: seq<Line>, c: Client, results: seq<WebSearchResult>): seq<Bar>
    decreases |lines|
  {
    if lines == [] || lines[0].DoneMark? then []
    else if c.hasWebSearch && IsSources(lines[0]) then Score(lines[1..], c, Parsed(lines[0].sources))
    else Bars(LineEvents(lines[0]), Footer(results)) + Score(lines[1..], c, results)
  }

  function Woven(score: seq<Bar>): string
    decreases |score|
  {
    if score == [] then "" else score[0].text + Woven(score[1..])
  }

  function Spoken(score: seq<Bar>): string
    decreases |score|
  {
    if score == [] then "" else (if score[0].Say? then score[0].text else "") + Spoken(score[1..])
  }

  lemma {:induction false} WovenAppend(a: seq<Bar>, b: seq<Bar>)
    ensures Woven(a + b) == Woven(a) + Woven(b) && Spoken(a + b) == Spoken(a) + Spoken(b)
    decreases |a|
  {
    if a == [] {
      Unit(b);
      Unit(Woven(b));
      Unit(Spoken(b));
    } else {
      assert (a + b)[1..] == a[1..] + b;
      WovenAppend(a[1..], b);
      Associate(a[0].text, Woven(a[1..]), Woven(b));
      Associate(if a[0].Say? then a[0].text else "", Spoken(a[1..]), Spoken(b));
    }
  }

  lemma ReadsOne(ev: StreamEvent)
    ensures Reads([ev]) == BodyReads(ev.body)
  {
    PlusSilent(BodyReads(ev.body));
    assert Reads([ev]) == Plus(BodyReads(ev.body), Reads([]));
  }

  /** A cue says its event, after the footer if it is a stop. */
  lemma OneCueReads(ev: StreamEvent, footer: string)
    ensures var cue, own := Reads(Cue([ev], footer)), BodyReads(ev.body);
            && cue.text == (if ev.body.MessageStop? then footer else own.text)
            && cue.thinking == own.thinking && cue.calls == own.calls
  {
    var foot := StreamEvent("", "", TextDelta(footer));
    assert Cue([], footer) == [];
    ReadsOne(ev);
    ReadsOne(foot);
    ReadsAppend([foot], [ev]);
    assert Cue([ev], footer) == if ev.body.MessageStop? && footer != "" then [foot] + [ev] else [ev];
    hide Reads, Cue;
    Unit(footer);
  }

  lemma {:induction false} CueReads(events: seq<StreamEvent>, footer: string)
    ensures var cue, own := Reads(Cue(events, footer)), Reads(events);
            && cue.text == Woven(Bars(events, footer)) && own.text == Spoken(Bars(events, footer))
            && cue.thinking == own.thinking && cue.calls == own.calls
    decreases |events|
  {
    if events != [] {
      var ev, rest := events[0], events[1..];
      CueReads(rest, footer);
      CueHead(events, footer);
      OneCueReads(ev, footer);
      ReadsAppend(Cue([ev], footer), Cue(rest, footer));
      var bars := Bars(events, footer);
      assert bars[1..] == Bars(rest, footer);
      assert BodyReads(ev.body).text == if bars[0].Say? then bars[0].text else "";
      hide Reads, Cue, BodyReads, Bars;
    }
  }

  lemma {:induction false} CuedReads(lines: seq<Line>, c: Client, results: seq<WebSearchResult>)
    ensures var cued, own := Reads(Cued(lines, c, results)), Reads(HeardEvents(lines, c));
            var score := Score(lines, c, results);
            && cued.text == Woven(score) && own.text == Spoken(score)
            && cued.thinking == own.thinking && cued.calls == own.calls
    decreases |lines|
  {
    hide LineEvents, Footer, Parsed, Cue, Bars, BodyReads;
    if lines != [] && !lines[0].DoneMark? {
      var line, rest := lines[0], lines[1..];
      if c.hasWebSearch && IsSources(line) {
        CuedReads(rest, c, Parsed(line.sources));
        Unit(Delivered(rest));
      } else {
        var own, footer := LineEvents(line), Footer(results);
        CuedReads(rest, c, results);
        CueReads(own, footer);
        ReadsAppend(Cue(own, footer), Cued(rest, c, results));
        ReadsAppend(own, HeardEvents(rest, c));
        WovenAppend(Bars(own, footer), Score(rest, c, results));
        assert HeardEvents(lines, c) == own + HeardEvents(rest, c);
      }
    }
  }

  // ----- the tool calls of the relay -----

  /** The events that touch tool calls. */
  function ToolBodies(events: seq<StreamEvent>): seq<EventBody>
    decreases |events|
  {
    if events == [] then []
    else
      (if events[0].body.ToolCallStart? || events[0].body.ToolCallDelta? then [events[0].body] else []) +
          ToolBodies(events[1..])
  }

  lemma {:induction false} ToolsFollow(a: Agg, b: Agg, x: seq<StreamEvent>, y: seq<StreamEvent>)
    requires a.toolCalls == b.toolCalls && ToolBodies(x) == ToolBodies(y)
    ensures ApplyAll(a, x).toolCalls == ApplyAll(b, y).toolCalls
    decreases |x| + |y|
  {
    if x != [] && !(x[0].body.ToolCallStart? || x[0].body.ToolCallDelta?) {
      assert Apply(a, x[0]).toolCalls == a.toolCalls;
      Unit(ToolBodies(x[1..]));
      ToolsFollow(Apply(a, x[0]), b, x[1..], y);
    } else if y != [] && !(y[0].body.ToolCallStart? || y[0].body.ToolCallDelta?) {
      assert Apply(b, y[0]).toolCalls == b.toolCalls;
      Unit(ToolBodies(y[1..]));
      ToolsFollow(a, Apply(b, y[0]), x, y[1..]);
    } else if x != [] && y != [] {
      SameFront(x, y);
      assert Apply(a, x[0]).toolCalls == Apply(b, y[0]).toolCalls;
      ToolsFollow(Apply(a, x[0]), Apply(b, y[0]), x[1..], y[1..]);
    }
  }

  lemma SameFront(x: seq<StreamEvent>, y: seq<StreamEvent>)
    requires x != [] && y != [] && ToolBodies(x) == ToolBodies(y)
    requires x[0].body.ToolCallStart? || x[0].body.ToolCallDelta?
    requires y[0].body.ToolCallStart? || y[0].body.ToolCallDelta?
    ensures x[0].body == y[0].body && ToolBodies(x[1..]) == ToolBodies(y[1..])
  {
    assert ToolBodies(x)[0] == ToolBodies(y)[0];
    assert ToolBodies(x)[1..] == ToolBodies(x[1..]) && ToolBodies(y)[1..] == ToolBodies(y[1..]);
  }

  lemma {:induction false} ToolBodiesAppend(a: seq<StreamEvent>, b: seq<StreamEvent>)
    ensures ToolBodies(a + b) == ToolBodies(a) + ToolBodies(b)
    decreases |a|
  {
    if a == [] {
      Unit(b);
      Unit(ToolBodies(b));
    } else {
      assert (a + b)[1..] == a[1..] + b;
      ToolBodiesAppend(a[1..], b);
      var own := if a[0].body.ToolCallStart? || a[0].body.ToolCallDelta? then [a[0].body] else [];
      Associate(own, ToolBodies(a[1..]), ToolBodies(b));
    }
  }

  lemma {:induction false} CueTools(events: seq<StreamEvent>, footer: string)
    ensures ToolBodies(Cue(events, footer)) == ToolBodies(events)
    decreases |events|
  {
    if events != [] {
      CueTools(events[1..], footer);
      CueHead(events, footer);
      ToolBodiesAppend(Cue([events[0]], footer), Cue(events[1..], footer));
      assert [events[0]] + events[1..] == events;
      ToolBodiesAppend([events[0]], events[1..]);
      OneCueTools(events[0], footer);
      hide ToolBodies, Cue;
    }
  }

  lemma OneCueTools(ev: StreamEvent, footer: string)
    ensures ToolBodies(Cue([ev], footer)) == ToolBodies([ev])
  {
    var foot := StreamEvent("", "", TextDelta(footer));
    assert Cue([], footer) == [];
    assert Cue([ev], footer) == if ev.body.MessageStop? && footer != "" then [foot] + [ev] else [ev];
    assert ToolBodies([foot]) == [];
    ToolBodiesAppend([foot], [ev]);
  }

  lemma {:induction false} CuedTools(lines: seq<Line>, c: Client, results: seq<WebSearchResult>)
    ensures ToolBodies(Cued(lines, c, results)) == ToolBodies(HeardEvents(lines, c))
    decreases |lines|
  {
    hide LineEvents, Footer, Parsed, Cue, ToolBodies;
    if lines != [] && !lines[0].DoneMark? {
      var line, rest := lines[0], lines[1..];
      if c.hasWebSearch && IsSources(line) {
        CuedTools(rest, c, Parsed(line.sources));
        Unit(Delivered(rest));
      } else {
        var own, footer := LineEvents(line), Footer(results);
        CuedTools(rest, c, results);
        CueTools(own, footer);
        ToolBodiesAppend(Cue(own, footer), Cued(rest, c, results));
        ToolBodiesAppend(own, HeardEvents(rest, c));
        assert HeardEvents(lines, c) == own + HeardEvents(rest, c);
      }
    }
  }

  lemma {:induction false} NamedTools(events: seq<StreamEvent>, c: Client)
    ensures ToolBodies(NamedAll(events, c)) == ToolBodies(events)
    decreases |events|
  {
    if events != [] {
      NamedTools(events[1..], c);
      assert NamedAll(events, c)[1..] == NamedAll(events[1..], c);
    }
  }

  // ----- every started call has an id -----

  lemma LineIdentifiable(line: Line)
    ensures AllIdentifiable(LineEvents(line))
  {
    if line.Data? && line.chunk.Some? {
      DecodedEvents(line.chunk.value);
    }
    hide DecodeChunk;
  }

  lemma {:induction false} CueIdentifiable(events: seq<StreamEvent>, footer: string)
    requires AllIdentifiable(events)
    ensures AllIdentifiable(Cue(events, footer))
    decreases |events|
  {
    if events != [] {
      assert events[0] in events;
      CueIdentifiable(events[1..], footer);
    }
  }

  lemma {:induction false} CuedIdentifiable(lines: seq<Line>, c: Client, results: seq<WebSearchResult>)
    ensures AllIdentifiable(Cued(lines, c, results))
    decreases |lines|
  {
    hide LineEvents, Footer, Parsed, Cue, Identifiable, IsSources;
    if lines != [] && !lines[0].DoneMark? {
      if lines[0].Data? {
        CuedIdentifiable(lines[1..], c, Parsed(lines[0].sources));
      }
      CuedIdentifiable(lines[1..], c, results);
      LineIdentifiable(lines[0]);
      CueIdentifiable(LineEvents(lines[0]), Footer(results));
      NotSources(lines[0]);
    }
  }

  lemma NotSources(line: Line)
    ensures IsSources(line) ==> line.Data?
  {
  }

  lemma NamedIdentifiable(events: seq<StreamEvent>, c: Client)
    requires AllIdentifiable(events)
    ensures AllIdentifiable(NamedAll(events, c))
  {
    forall ev | ev in NamedAll(events, c) ensures Identifiable(ev.body) {
      var i :| 0 <= i < |events| && NamedAll(events, c)[i] == ev;
      assert events[i] in events;
    }
  }

  /** What the client of the relay assembles, for every body. */
  lemma RelayReads(lines: seq<Line>, c: Client)
    ensures var reply, heard := ReplyTo(RelayLines(Opening, lines, c).enc.out), HeardEvents(lines, c);
            && reply.content == Woven(Score(lines, c, []))
            && Reads(heard).text == Spoken(Score(lines, c, []))
            && reply.reasoning == Reads(heard).thinking
            && reply.calls == ApplyAll(Empty, heard).toolCalls
  {
    var cued := Cued(lines, c, []);
    RelayIsRun(Opening, lines, c);
    CuedIdentifiable(lines, c, []);
    NamedIdentifiable(cued, c);
    ChunksReadAsAggregated(NamedAll(cued, c));
    FreshReads(NamedAll(cued, c));
    ReadsIgnoresNames(cued, c.responseID, c.model);
    CuedReads(lines, c, []);
    NamedTools(cued, c);
    CuedTools(lines, c, []);
    ToolsFollow(Empty, Empty, NamedAll(cued, c), HeardEvents(lines, c));
    hide ReplyTo, RelayLines, HeardEvents, Woven, Spoken, Score, Reads, ApplyAll, Cued, NamedAll, ORun;
  }

  // ----- the aggregated message -----

  lemma PartsSnoc(a: seq<Content>, x: Content, show: Printer)
    ensures TextParts(a + [x]) == TextParts(a) + if x.Text? then [x.text] else []
    ensures ThinkingParts(a + [x]) == ThinkingParts(a) + if x.Thinking? then [x.text] else []
    ensures CallParts(a + [x], show) ==
            CallParts(a, show) + if x.ToolUse? then [ClientCall(x.id, x.name, show(x.arguments))] else []
  {
    assert (a + [x])[..|a|] == a;
  }

  lemma {:induction false} PartsAppend(a: seq<Content>, b: seq<Content>, show: Printer)
    ensures TextParts(a + b) == TextParts(a) + TextParts(b)
    ensures ThinkingParts(a + b) == ThinkingParts(a) + ThinkingParts(b)
    ensures CallParts(a + b, show) == CallParts(a, show) + CallParts(b, show)
  {
    if b == [] {
      Unit(a);
      Unit(TextParts(a));
      Unit(ThinkingParts(a));
      Unit(CallParts(a, show));
    } else {
      var n := |b| - 1;
      var x := b[n];
      var text, thinking := if x.Text? then [x.text] else [], if x.Thinking? then [x.text] else [];
      var calls := if x.ToolUse? then [ClientCall(x.id, x.name, show(x.arguments))] else [];
      PartsAppend(a, b[..n], show);
      PartsSnoc(a + b[..n], x, show);
      PartsSnoc(b[..n], x, show);
      LastOf(b);
      Associate(a, b[..n], [x]);
      Associate(TextParts(a), TextParts(b[..n]), text);
      Associate(ThinkingParts(a), ThinkingParts(b[..n]), thinking);
      Associate(CallParts(a, show), CallParts(b[..n], show), calls);
      hide *;
    }
  }

  /** The calls of the message: those of the aggregate, arguments parsed and printed again. */
  function Reprinted(calls: seq<Call>, parse: Parser, show: Printer): seq<ClientCall> {
    seq(|calls|, i requires 0 <= i < |calls| =>
      ClientCall(calls[i].id, calls[i].name, show(ArgumentsOf(calls[i].arguments, parse))))
  }

  lemma {:induction false} CallsRead(calls: seq<Call>, parse: Parser, show: Printer)
    ensures var uses := ToolUses(calls, parse);
            TextParts(uses) == [] && ThinkingParts(uses) == [] && CallParts(uses, show) == Reprinted(calls, parse, show)
  {
    if calls != [] {
      var n := |calls| - 1;
      CallsRead(calls[..n], parse, show);
      var x := ToolUses(calls, parse)[n];
      assert ToolUses(calls, parse) == ToolUses(calls[..n], parse) + [x];
      PartsSnoc(ToolUses(calls[..n], parse), x, show);
      hide TextParts, ThinkingParts, CallParts, ArgumentsOf;
      assert Reprinted(calls, parse, show)[..n] == Reprinted(calls[..n], parse, show);
    }
  }

  lemma OneBlockReads(x: Content, show: Printer)
    requires !x.ToolUse?
    ensures TextParts([x]) == if x.Text? then [x.text] else []
    ensures ThinkingParts([x]) == if x.Thinking? then [x.text] else []
    ensures CallParts([x], show) == []
  {
    PartsSnoc([], x, show);
    Unit([x]);
  }

  lemma JoinOne(s: string)
    ensures Join([s]) == s && Join([]) == ""
  {
    assert [s][..0] == [];
  }

  function ThinkingBlockOf(a: Agg): seq<Content> {
    if |a.thinkingParts| > 0 then [Thinking(Join(a.thinkingParts))] else []
  }

  lemma JoinedReads(parts: seq<string>)
    ensures OrEmpty(Joined(parts)) == Join(parts)
  {
  }

  lemma ThoughtsRead(a: Agg, show: Printer)
    ensures var thinking := ThinkingBlockOf(a);
            TextParts(thinking) == [] && Join(ThinkingParts(thinking)) == Join(a.thinkingParts) &&
                CallParts(thinking, show) == []
  {
    NoParts(show);
    OneBlockReads(Thinking(Join(a.thinkingParts)), show);
    JoinOne(Join(a.thinkingParts));
    hide TextParts, ThinkingParts, CallParts;
  }

  lemma TextRead(text: seq<Content>, visible: string, show: Printer)
    requires (text == [] && visible == "") || text == [Text(visible)]
    ensures Join(TextParts(text)) == visible && ThinkingParts(text) == [] && CallParts(text, show) == []
  {
    NoParts(show);
    OneBlockReads(Text(visible), show);
    JoinOne(visible);
    hide TextParts, ThinkingParts, CallParts;
  }

  /** The parts of thinking, text and calls, in either order of the last two. */
  lemma ThreeParts(thinking: seq<Content>, text: seq<Content>, calls: seq<Content>, last: bool, show: Printer)
    requires TextParts(thinking) == [] && CallParts(thinking, show) == []
    requires ThinkingParts(text) == [] && CallParts(text, show) == []
    requires TextParts(calls) == [] && ThinkingParts(calls) == []
    ensures var all := if last then thinking + calls + text else thinking + text + calls;
            && TextParts(all) == TextParts(text) && ThinkingParts(all) == ThinkingParts(thinking)
            && CallParts(all, show) == CallParts(calls, show)
  {
    hide TextParts, ThinkingParts, CallParts;
    if last {
      PartsAppend(thinking, calls, show);
      PartsAppend(thinking + calls, text, show);
    } else {
      PartsAppend(thinking, text, show);
      PartsAppend(thinking + text, calls, show);
    }
    Unit(TextParts(text));
    Unit(ThinkingParts(thinking));
    Unit(CallParts(calls, show));
  }

  /** A message whose visible text is `text`, wherever its block stands. */
  lemma LaidOut(a: Agg, text: seq<Content>, visible: string, last: bool, parse: Parser, show: Printer)
    requires (text == [] && visible == "") || text == [Text(visible)]
    ensures var calls := ToolUses(a.toolCalls, parse);
            var m :=
              MessageOf(if last then ThinkingBlockOf(a) + calls + text else ThinkingBlockOf(a) + text + calls, show);
            && OrEmpty(m.content) == visible
            && OrEmpty(m.reasoning) == Join(a.thinkingParts)
            && m.toolCalls == Reprinted(a.toolCalls, parse, show)
  {
    hide TextParts, ThinkingParts, CallParts, ToolUses, Reprinted, Join, Joined, OrEmpty, ThinkingBlockOf;
    ThoughtsRead(a, show);
    TextRead(text, visible, show);
    CallsRead(a.toolCalls, parse, show);
    ThreeParts(ThinkingBlockOf(a), text, ToolUses(a.toolCalls, parse), last, show);
    JoinedReads(TextParts(text));
    JoinedReads(ThinkingParts(ThinkingBlockOf(a)));
  }

  lemma NoParts(show: Printer)
    ensures TextParts([]) == [] && ThinkingParts([]) == [] && CallParts([], show) == [] && Join([]) == ""
  {
  }

  predicate NoText(content: seq<Content>) {
    forall x :: x in content ==> !x.Text?
  }

  lemma FooterBetween(pre: seq<Content>, text: string, post: seq<Content>, footer: string)
    requires NoText(pre)
    ensures AddFooter(pre + [Text(text)] + post, footer) == pre + [Text(text + footer)] + post
    ensures AddFooter(pre, footer) == pre + [Text(footer)]
  {
    var content := pre + [Text(text)] + post;
    AddFooterAt(content, |pre|, footer);
    AddFooterAt(pre, |pre|, footer);
    hide AddFooter;
    assert content[|pre| := Text(text + footer)] == pre + [Text(text + footer)] + post;
  }

  lemma AroundTheText(a: Agg, parse: Parser)
    ensures NoText(ThinkingBlockOf(a)) && NoText(ThinkingBlockOf(a) + ToolUses(a.toolCalls, parse))
    ensures FinalContent(a, parse) ==
            if |a.textParts| > 0 then ThinkingBlockOf(a) + [Text(Join(a.textParts))] + ToolUses(a.toolCalls, parse)
            else ThinkingBlockOf(a) + ToolUses(a.toolCalls, parse)
    ensures |a.textParts| == 0 ==> Join(a.textParts) == ""
  {
    Unit(ThinkingBlockOf(a));
  }

  lemma FooterLands(a: Agg, footer: string, parse: Parser)
    ensures var text := [Text(Join(a.textParts) + footer)];
            AddFooter(FinalContent(a, parse), footer) ==
            if |a.textParts| > 0 then ThinkingBlockOf(a) + text + ToolUses(a.toolCalls, parse)
            else ThinkingBlockOf(a) + ToolUses(a.toolCalls, parse) + text
  {
    var thinking, calls := ThinkingBlockOf(a), ToolUses(a.toolCalls, parse);
    AroundTheText(a, parse);
    hide AddFooter, FinalContent, ThinkingBlockOf, ToolUses, Join, NoText;
    FooterBetween(thinking, Join(a.textParts), calls, footer);
    FooterBetween(thinking + calls, "", [], footer);
    Unit(footer);
  }

  /** The client message of an aggregate: its text with the footer, its reasoning, its calls. */
  lemma MessageReads(a: Agg, hasWebSearch: bool, results: seq<WebSearchResult>, parse: Parser, show: Printer)
    ensures var m := MessageOf(Footed(FinalContent(a, parse), hasWebSearch, results), show);
            && OrEmpty(m.content) == Join(a.textParts) + (if hasWebSearch then Footer(results) else "")
            && OrEmpty(m.reasoning) == Join(a.thinkingParts)
            && m.toolCalls == Reprinted(a.toolCalls, parse, show)
  {
    var footed := [Text(Join(a.textParts) + Footer(results))];
    var plain := if |a.textParts| > 0 then [Text(Join(a.textParts))] else [];
    FooterLands(a, Footer(results), parse);
    assert |a.textParts| == 0 ==> Join(a.textParts) == "";
    LaidOut(a, footed, footed[0].text, |a.textParts| == 0, parse, show);
    LaidOut(a, plain, Join(a.textParts), false, parse, show);
    assert FinalContent(a, parse) == ThinkingBlockOf(a) + plain + ToolUses(a.toolCalls, parse);
    assert results == [] ==> Footer(results) == "";
    hide MessageOf, AddFooter, FinalContent, ThinkingBlockOf, ToolUses, Join, Reprinted, Footer;
    Unit(Join(a.textParts));
  }

  // ----- footers woven in, against one footer at the end -----

  /** From the first footer that is sent. */
  function Tail(score: seq<Bar>): seq<Bar>
    decreases |score|
  {
    if score == [] || (score[0].Foot? && score[0].text != "") then score else Tail(score[1..])
  }

  predicate Balanced(score: seq<Bar>, footer: string) {
    Woven(score) == Spoken(score) + footer
  }

  /** Up to the first footer sent, nothing can differ. */
  lemma {:induction false} OnlyTheTail(score: seq<Bar>, footer: string)
    ensures Balanced(score, footer) <==> Balanced(Tail(score), footer)
    decreases |score|
  {
    if score != [] && !(score[0].Foot? && score[0].text != "") {
      OnlyTheTail(score[1..], footer);
      var own := score[0].text;
      Associate(own, Spoken(score[1..]), footer);
      Cancel(own, Woven(score[1..]), Spoken(score[1..]) + footer);
    }
  }

  lemma Cancel(head: string, a: string, b: string)
    ensures head + a == head + b <==> a == b
  {
    if head + a == head + b {
      assert (head + a)[|head|..] == a && (head + b)[|head|..] == b;
    }
  }

  /** The footers sent, in order. */
  function Feet(score: seq<Bar>): seq<string>
    decreases |score|
  {
    if score == [] then []
    else (if score[0].Foot? && score[0].text != "" then [score[0].text] else []) + Feet(score[1..])
  }

  lemma {:induction false} NoFeet(score: seq<Bar>)
    requires Feet(score) == []
    ensures Tail(score) == [] && Woven(score) == Spoken(score)
    decreases |score|
  {
    if score != [] {
      NoFeet(score[1..]);
    }
  }

  lemma {:induction false} TailFeet(score: seq<Bar>)
    ensures Feet(Tail(score)) == Feet(score)
    ensures Feet(score) != [] ==> Tail(score) != [] && Tail(score)[0] == Foot(Feet(score)[0])
    ensures Feet(score) != [] ==> Feet(Tail(score)[1..]) == Feet(score)[1..]
    decreases |score|
  {
    if score != [] && !(score[0].Foot? && score[0].text != "") {
      TailFeet(score[1..]);
      Unit(Feet(score[1..]));
    }
  }

  /** With one footer sent, the answers agree exactly when it can be moved behind the text that follows it. */
  lemma OneFoot(score: seq<Bar>, footer: string)
    requires |Feet(score)| == 1
    ensures var trailing := Spoken(Tail(score));
            Balanced(Tail(score), footer) <==> Feet(score)[0] + trailing == trailing + footer
  {
    TailFeet(score);
    var tail := Tail(score);
    assert Feet(tail[1..]) == [];
    NoFeet(tail[1..]);
    hide Feet, Tail;
    assert Woven(tail) == tail[0].text + Woven(tail[1..]);
    Unit(Spoken(tail[1..]));
  }

  function Total(feet: seq<string>): nat
    decreases |feet|
  {
    if feet == [] then 0 else |feet[0]| + Total(feet[1..])
  }

  lemma {:induction false} WovenLength(score: seq<Bar>)
    ensures |Woven(score)| == |Spoken(score)| + Total(Feet(score))
    decreases |score|
  {
    if score != [] {
      WovenLength(score[1..]);
      if score[0].Foot? && score[0].text != "" {
        assert Feet(score)[1..] == Feet(score[1..]);
      } else {
        Unit(Feet(score[1..]));
      }
    }
  }

  /** When every footer sent is the final one, they agree exactly if none is needed or one is sent, and can be moved. */
  lemma SettledFeet(score: seq<Bar>, footer: string)
    requires forall f :: f in Feet(score) ==> f == footer
    ensures Balanced(score, footer) <==>
            footer == "" || (|Feet(score)| == 1 && footer + Spoken(Tail(score)) == Spoken(Tail(score)) + footer)
  {
    OnlyTheTail(score, footer);
    FeetAreSent(score);
    if Feet(score) == [] {
      NoFeet(score);
      Unit(Spoken(score));
      assert Balanced(score, footer) ==> |footer| == 0;
    } else {
      assert Feet(score)[0] in Feet(score);
      if |Feet(score)| == 1 {
        OneFoot(score, footer);
      } else {
        assert Feet(score)[1] in Feet(score);
        WovenLength(score);
        assert Total(Feet(score)) == |Feet(score)[0]| + (|Feet(score)[1]| + Total(Feet(score)[1..][1..]));
      }
    }
  }

  lemma {:induction false} FeetAreSent(score: seq<Bar>)
    ensures forall f :: f in Feet(score) ==> f != ""
    decreases |score|
  {
    if score != [] {
      FeetAreSent(score[1..]);
    }
  }

  // ----- the two answers -----

  /**
    For every upstream body and every OpenAI client, the aggregated answer exists if and
    only if the body decodes, and then: with web search the reasoning agrees, and the
    content does if and only if what is sent from the first footer on equals the text
    from there on with the final footer behind it; without web search they agree if and
    only if the body's sources lines carry no reasoning, or no text.
   */
  lemma RelayedEqualsAggregated(lines: seq<Line>, c: Client, parse: Parser, show: Printer)
    ensures var s := AggregateLines(Blank, lines);
            && (s.Ok? <==> AllDecode(lines))
            && (s.Ok? ==>
                  var reply := ReplyTo(RelayLines(Opening, lines, c).enc.out);
                  var message :=
                    MessageOf(Footed(FinalContent(s.value.agg, parse), c.hasWebSearch, s.value.results), show);
                  var score, extra := Score(lines, c, []), SourcesSay(lines);
                  && (reply.reasoning == OrEmpty(message.reasoning) <==> c.hasWebSearch || extra.thinking == "")
                  && (reply.content == OrEmpty(message.content) <==>
                        if c.hasWebSearch then Balanced(Tail(score), Footer(Found(lines, []))) else extra.text == ""))
  {
    AggregateIsFold(Blank, lines);
    RelayReads(lines, c);
    var s := AggregateLines(Blank, lines);
    if s.Ok? {
      MessageReads(s.value.agg, c.hasWebSearch, s.value.results, parse, show);
      FreshReads(Delivered(lines));
      SourcesInterleave(lines);
      OnlyTheTail(Score(lines, c, []), Footer(Found(lines, [])));
      if !c.hasWebSearch {
        PlainScore(lines, c);
        Unit(Join(s.value.agg.textParts));
      }
      hide ReplyTo, RelayLines, MessageOf, Footed, FinalContent, Score, SourcesSay, Tail, Footer, Found, Reads,
        Delivered, AllEvents, ApplyAll, Woven, Spoken, Join, AggregateLines, AllDecode, NamesOf;
    }
  }

  /** Without web search no footer is ever sent. */
  lemma {:induction false} PlainScore(lines: seq<Line>, c: Client)
    requires !c.hasWebSearch
    ensures Woven(Score(lines, c, [])) == Spoken(Score(lines, c, []))
    decreases |lines|
  {
    if lines != [] && !lines[0].DoneMark? {
      PlainScore(lines[1..], c);
      assert Footer([]) == "";
      PlainBars(LineEvents(lines[0]));
      WovenAppend(Bars(LineEvents(lines[0]), ""), Score(lines[1..], c, []));
      hide LineEvents, Bars, Footer;
    }
  }

  lemma {:induction false} PlainBars(events: seq<StreamEvent>)
    ensures Woven(Bars(events, "")) == Spoken(Bars(events, ""))
    decreases |events|
  {
    if events != [] {
      PlainBars(events[1..]);
      assert Bars(events, "")[1..] == Bars(events[1..], "");
    }
  }

  // ----- sources before the first stop -----

  predicate HasStop(events: seq<StreamEvent>)
    decreases |events|
  {
    events != [] && (events[0].body.MessageStop? || HasStop(events[1..]))
  }

  /** No sources line arrives once a stop has been delivered. */
  predicate SourcesBeforeStop(lines: seq<Line>)
    decreases |lines|
  {
    lines != [] && !lines[0].DoneMark? ==>
      && SourcesBeforeStop(lines[1..])
      && (HasStop(EventsOf(lines[0])) ==> NoSources(lines[1..]))
  }

  predicate NoSources(lines: seq<Line>)
    decreases |lines|
  {
    lines != [] && !lines[0].DoneMark? ==> !IsSources(lines[0]) && NoSources(lines[1..])
  }

  lemma {:induction false} NoSourcesFound(lines: seq<Line>, current: seq<WebSearchResult>)
    requires NoSources(lines)
    ensures Found(lines, current) == current
    decreases |lines|
  {
    if lines != [] && !lines[0].DoneMark? {
      NoSourcesFound(lines[1..], current);
    }
  }

  ghost predicate AllFeet(score: seq<Bar>, footer: string) {
    forall f :: f in Feet(score) ==> f == footer
  }

  lemma {:induction false} FeetAppend(a: seq<Bar>, b: seq<Bar>)
    ensures Feet(a + b) == Feet(a) + Feet(b)
    decreases |a|
  {
    if a == [] {
      Unit(b);
      Unit(Feet(b));
    } else {
      assert (a + b)[1..] == a[1..] + b;
      FeetAppend(a[1..], b);
    }
  }

  lemma {:induction false} BarFeet(events: seq<StreamEvent>, footer: string)
    ensures AllFeet(Bars(events, footer), footer)
    ensures !HasStop(events) ==> Feet(Bars(events, footer)) == []
    decreases |events|
  {
    if events != [] {
      BarFeet(events[1..], footer);
      assert Bars(events, footer)[1..] == Bars(events[1..], footer);
    }
  }

  lemma {:induction false} SettledScore(lines: seq<Line>, c: Client, results: seq<WebSearchResult>)
    requires c.hasWebSearch && SourcesBeforeStop(lines)
    ensures AllFeet(Score(lines, c, results), Footer(Found(lines, results)))
    decreases |lines|
  {
    hide LineEvents, Footer, Parsed, Bars, IsSources, HasStop;
    if lines != [] && !lines[0].DoneMark? {
      var line, rest := lines[0], lines[1..];
      NotSources(line);
      if IsSources(line) {
        SettledScore(rest, c, Parsed(line.sources));
      } else {
        var own := LineEvents(line);
        SettledScore(rest, c, results);
        BarFeet(own, Footer(results));
        FeetAppend(Bars(own, Footer(results)), Score(rest, c, results));
        if HasStop(own) { NoSourcesFound(rest, results); }
        hide Feet;
      }
    }
  }

  /**
    When all sources come before the first stop, the contents agree if and only if there
    is no footer, or there is exactly one stop and the footer can be moved behind the
    text that follows it (as it can when none does).
   */
  lemma SettledSourcesAgree(lines: seq<Line>, c: Client, parse: Parser, show: Printer)
    requires c.hasWebSearch && AllDecode(lines) && SourcesBeforeStop(lines)
    ensures var s := AggregateLines(Blank, lines);
            && s.Ok?
            && var reply := ReplyTo(RelayLines(Opening, lines, c).enc.out);
               var message := MessageOf(Footed(FinalContent(s.value.agg, parse), true, s.value.results), show);
               var score, footer := Score(lines, c, []), Footer(Found(lines, []));
               var trailing := Spoken(Tail(score));
               (reply.content == OrEmpty(message.content) <==>
                  footer == "" || (|Feet(score)| == 1 && footer + trailing == trailing + footer))
  {
    RelayedEqualsAggregated(lines, c, parse, show);
    SettledScore(lines, c, []);
    var score, footer := Score(lines, c, []), Footer(Found(lines, []));
    OnlyTheTail(score, footer);
    SettledFeet(score, footer);
    hide ReplyTo, RelayLines, MessageOf, Footed, FinalContent, Score, Tail, Footer, Found, Feet, Spoken,
      Balanced, AggregateLines;
  }

  // ----- the tool calls -----

  ghost predicate SameNames(calls: seq<Call>, message: seq<ClientCall>) {
    |calls| == |message| &&
        forall i :: 0 <= i < |calls| ==> calls[i].id == message[i].id && calls[i].name == message[i].name
  }

  ghost predicate SameArguments(calls: seq<Call>, message: seq<ClientCall>)
    requires |calls| == |message|
  {
    forall i :: 0 <= i < |calls| ==> calls[i].arguments == message[i].arguments
  }

  /** The argument text is what parsing and printing it again gives. */
  predicate Reprints(raw: string, parse: Parser, show: Printer) {
    show(ArgumentsOf(raw, parse)) == raw
  }

  /** Each argument string heard is what the one kept is printed as. */
  predicate Printed(heard: seq<Call>, kept: seq<Call>, parse: Parser, show: Printer)
    requires |heard| == |kept|
  {
    forall i :: 0 <= i < |kept| ==> heard[i].arguments == show(ArgumentsOf(kept[i].arguments, parse))
  }

  /**
    For every body and every client: the aggregated answer exists if and only if the body
    decodes, and then the relayed and the aggregated list of calls have the same ids and
    names if and only if no sources line the relay decodes starts a call. If so, the
    argument strings agree if and only if each one heard is what the one kept is printed
    as; and unless such a line adds to a call, that is: if and only if each one is
    unchanged by being parsed and printed again.
   */
  lemma RelayedCallsEqualAggregated(lines: seq<Line>, c: Client, parse: Parser, show: Printer)
    ensures var s := AggregateLines(Blank, lines);
            && (s.Ok? <==> AllDecode(lines))
            && (s.Ok? ==>
                  var calls := ReplyTo(RelayLines(Opening, lines, c).enc.out).calls;
                  var heard, kept := ApplyAll(Empty, HeardEvents(lines, c)).toolCalls, s.value.agg.toolCalls;
                  var content := Footed(FinalContent(s.value.agg, parse), c.hasWebSearch, s.value.results);
                  var message := MessageOf(content, show);
                  && (SameNames(calls, message.toolCalls) <==> c.hasWebSearch || SourcesSay(lines).calls == [])
                  && (SameNames(calls, message.toolCalls) ==>
                        && |heard| == |kept|
                        && (SameArguments(calls, message.toolCalls) <==> Printed(heard, kept, parse, show))
                        && (c.hasWebSearch || SourcesArguments.SourcesAddNothing(lines, {}) ==>
                              (SameArguments(calls, message.toolCalls) <==>
                                 forall call :: call in kept ==> Reprints(call.arguments, parse, show)))))
  {
    AggregateIsFold(Blank, lines);
    if AllDecode(lines) {
      RelayReads(lines, c);
      var s := AggregateLines(Blank, lines).value;
      var heard, kept := ApplyAll(Empty, HeardEvents(lines, c)).toolCalls, s.agg.toolCalls;
      MessageReads(s.agg, c.hasWebSearch, s.results, parse, show);
      FreshReads(HeardEvents(lines, c));
      FreshReads(Delivered(lines));
      SourcesInterleave(lines);
      NamesAgree(heard, kept, parse, show);
      if !c.hasWebSearch && SourcesSay(lines).calls == [] {
        SourcesArguments.SourcesOnlyAdd(lines);
      }
      if NamesOf(heard) == NamesOf(kept) {
        assert |NamesOf(heard)| == |heard| && |NamesOf(kept)| == |kept|;
        ArgumentsAgree(heard, kept, parse, show);
      }
    }
    hide ReplyTo, RelayLines, MessageOf, Footed, FinalContent, Score, SourcesSay, Reads, Delivered, AllEvents,
      ApplyAll, Woven, Spoken, Join, AggregateLines, AllDecode, Reprinted, Reprints, SameArguments, SameNames,
      NamesOf, Printed, SourcesArguments.SourcesAddNothing;
  }

  lemma NamesAgree(heard: seq<Call>, kept: seq<Call>, parse: Parser, show: Printer)
    ensures SameNames(heard, Reprinted(kept, parse, show)) <==> NamesOf(heard) == NamesOf(kept)
  {
    var a, k, m := NamesOf(heard), NamesOf(kept), Reprinted(kept, parse, show);
    hide ArgumentsOf;
    if SameNames(heard, m) {
      assert |a| == |k| && forall i :: 0 <= i < |a| ==> a[i] == k[i];
    }
    if a == k {
      assert forall i :: 0 <= i < |kept| ==> (heard[i].id, heard[i].name) == a[i] == k[i] == (m[i].id, m[i].name);
    }
  }

  lemma ArgumentsAgree(heard: seq<Call>, kept: seq<Call>, parse: Parser, show: Printer)
    requires |heard| == |kept|
    ensures var m := Reprinted(kept, parse, show);
            && |heard| == |m|
            && (SameArguments(heard, m) <==> Printed(heard, kept, parse, show))
    ensures heard == kept ==>
              (Printed(heard, kept, parse, show) <==>
                 forall call :: call in kept ==> Reprints(call.arguments, parse, show))
  {
    var m := Reprinted(kept, parse, show);
    hide ArgumentsOf;
    assert forall i :: 0 <= i < |kept| ==> m[i].arguments == show(ArgumentsOf(kept[i].arguments, parse));
    if heard == kept {
      assert forall i :: 0 <= i < |kept| ==> kept[i] in kept;
    }
  }

  /** Printing then parsing is the identity, and nothing prints as the empty text. */
  ghost predicate Lawful(parse: Parser, show: Printer) {
    forall v {:trigger show(v)} :: parse(show(v)) == Some(v) && show(v) != ""
  }

  /** So the argument strings that agree are the printed values; in particular no empty one does. */
  lemma PrintedArgumentsAgree(raw: string, parse: Parser, show: Printer)
    requires Lawful(parse, show)
    ensures Reprints(raw, parse, show) <==> exists v :: show(v) == raw
    ensures Reprints(raw, parse, show) ==> raw != ""
  {
    if v :| show(v) == raw {
      assert parse(raw) == Some(v);
    }
    assert show(ArgumentsOf(raw, parse)) != "";
  }
}
