/**
  Which content blocks an Anthropic client is shown, and when the search blocks of the
  stream are those of the aggregated answer (server/public_anthropic.go): the answer
  puts them first, with the last results of all; the stream puts them before the first
  text, if any comes, with the results known by then.
 */
module SearchAgreement {
  import opened Wrappers
  import opened Types
  import opened AnthropicEncoder
  import opened AnthropicClient
  import opened OpenAIStream
  import opened Aggregate
  import opened AnthropicRelay
  import opened SearchInjection
  import opened Delivery
  import ClosingDelta
  import OpenAIRelay

  // ----- the blocks of a stream -----

  function StartOf(x: Sse): seq<Header> {
    if x.BlockStart? then [x.header] else []
  }

  /** The blocks started, in order. */
  function Layout(trace: seq<Sse>): seq<Header> {
    if trace == [] then [] else Layout(trace[..|trace| - 1]) + StartOf(trace[|trace| - 1])
  }

  lemma LayoutPut(trace: seq<Sse>, x: Sse)
    ensures Layout(trace + [x]) == Layout(trace) + StartOf(x)
  {
    assert (trace + [x])[..|trace|] == trace;
  }

  /** It is the headers of the blocks the client assembles. */
  lemma {:induction false} LayoutOfBlocks(trace: seq<Sse>)
    ensures |Layout(trace)| == |Blocks(trace)|
    ensures forall i :: 0 <= i < |Blocks(trace)| ==> Layout(trace)[i] == Blocks(trace)[i].header
  {
    if trace != [] {
      LayoutOfBlocks(trace[..|trace| - 1]);
    }
  }

  lemma {:induction false} LayoutAppend(a: seq<Sse>, b: seq<Sse>)
    ensures Layout(a + b) == Layout(a) + Layout(b)
  {
    hide StartOf;
    if b == [] {
      Unit(a);
      Unit(Layout(a));
    } else {
      var n := |b| - 1;
      LayoutAppend(a, b[..n]);
      LastOf(b);
      Associate(a, b[..n], [b[n]]);
      LayoutPut(a + b[..n], b[n]);
      Associate(Layout(a), Layout(b[..n]), StartOf(b[n]));
    }
  }

  // ----- what the encoder lays out -----

  /** The blocks one event starts while a block of this kind is open. */
  function StartsOf(kind: string, body: EventBody): seq<Header> {
    match body
    case TextDelta(text) => if text == "" || kind == "text" then [] else [TextHeader]
    case ThinkingDelta(_) => if kind == "thinking" then [] else [ThinkingHeader]
    case ThinkingSignature(_) => if kind == "thinking" then [] else [ThinkingHeader]
    case ToolCallStart(_, id, name) => [ToolUseHeader(id, name)]
    case WebSearch(id, results) => [ServerToolUseHeader(id), SearchResultHeader(id, results)]
    case _ => []
  }

  /** The kind of block that is open afterwards. */
  function KindAfter(kind: string, body: EventBody): string {
    match body
    case TextDelta(text) => if text == "" then kind else "text"
    case ThinkingDelta(_) => "thinking"
    case ThinkingSignature(_) => "thinking"
    case ToolCallDelta(_, _) => kind
    case UsageFinal(_) => kind
    case _ => ""
  }

  function Laid(kind: string, events: seq<StreamEvent>): seq<Header>
    decreases |events|
  {
    if events == [] then []
    else StartsOf(kind, events[0].body) + Laid(KindAfter(kind, events[0].body), events[1..])
  }

  ghost predicate Kinded(s: Enc) {
    !s.blockOpen ==> s.blockType == ""
  }

  /** From `s` to `t` these blocks were started, and one of this kind is open. */
  ghost predicate Lays(s: Enc, t: Enc, started: seq<Header>, kind: string) {
    Kinded(t) && t.blockType == kind && Layout(t.out) == Layout(s.out) + started
  }

  lemma PutLays(s: Enc, x: Sse)
    requires Kinded(s) && !x.BlockStart?
    ensures Lays(s, Put(s, x), [], s.blockType)
  {
    LayoutPut(s.out, x);
    hide Layout;
  }

  lemma CloseLays(s: Enc)
    requires Kinded(s)
    ensures Lays(s, Close(s), [], "") && !Close(s).blockOpen
  {
    LayoutPut(s.out, BlockStop(s.blockIdx));
    hide Layout;
  }

  lemma OpenLays(s: Enc, h: Header, kind: string)
    ensures Lays(s, Open(s, h, kind), [h], kind) && Open(s, h, kind).blockOpen
  {
    LayoutPut(s.out, BlockStart(s.blockIdx, h));
    hide Layout;
  }

  lemma EnsureLays(s: Enc, kind: string)
    requires Kinded(s) && kind in ["text", "thinking"]
    ensures Lays(s, EnsureBlock(s, kind),
                 if s.blockType == kind then [] else [if kind == "text" then TextHeader else ThinkingHeader], kind)
  {
    CloseLays(s);
    OpenLays(Close(s), if kind == "text" then TextHeader else ThinkingHeader, kind);
    hide Layout, Open, Close;
  }

  lemma StandaloneLays(s: Enc, h: Header)
    requires Kinded(s)
    ensures Lays(s, Standalone(s, h), [h], "")
  {
    CloseLays(s);
    OpenLays(Close(s), h, "");
    CloseLays(Open(Close(s), h, ""));
    hide Layout, Open, Close;
  }

  lemma PieceLays(s: Enc, kind: string, d: Delta)
    requires Kinded(s) && kind in ["text", "thinking"]
    ensures var b := EnsureBlock(s, kind);
            && var h := if s.blockType == kind then [] else [if kind == "text" then TextHeader else ThinkingHeader];
               Lays(s, b, h, kind) && Lays(s, Put(b, BlockDelta(b.blockIdx, d)), h, kind)
  {
    EnsureLays(s, kind);
    var b := EnsureBlock(s, kind);
    PutLays(b, BlockDelta(b.blockIdx, d));
    hide Layout, EnsureBlock;
  }

  lemma DispatchLays(s: Enc, body: EventBody)
    requires Kinded(s)
    ensures Lays(s, Dispatch(s, body), StartsOf(s.blockType, body), KindAfter(s.blockType, body))
  {
    hide Layout, EnsureBlock, Close, Standalone, Payload;
    match body {
      case TextDelta(text) => PieceLays(s, "text", TextPiece(text));
      case ThinkingDelta(text) => PieceLays(s, "thinking", ThinkingPiece(text));
      case ThinkingSignature(signature) => PieceLays(s, "thinking", SignaturePiece(signature));
      case ToolCallDelta(index, arguments) => PutLays(s, BlockDelta(Target(s, index), InputJsonPiece(arguments)));
      case _ =>
        hide Lays;
        RestLays(s, body);
    }
  }

  lemma RestLays(s: Enc, body: EventBody)
    requires Kinded(s) && !body.TextDelta? && !body.ThinkingDelta? && !body.ThinkingSignature? && !body.ToolCallDelta?
    ensures Lays(s, Dispatch(s, body), StartsOf(s.blockType, body), KindAfter(s.blockType, body))
  {
    hide Layout, EnsureBlock, Close, Standalone, Payload;
    CloseLays(s);
    var c := Close(s);
    match body {
      case ToolCallStart(index, id, name) =>
        OpenLays(c.(toolCallBlocks := c.toolCallBlocks[index := c.blockIdx]), ToolUseHeader(id, name), "");
      case WebSearch(id, results) =>
        StandaloneLays(c, ServerToolUseHeader(id));
        StandaloneLays(Standalone(c, ServerToolUseHeader(id)), SearchResultHeader(id, results));
      case MessageStop(reason) =>
        PutLays(c, MessageDelta(if reason == "" then "end_turn" else reason, Payload(c.usage)));
      case UsageFinal(_) =>
        PutLays(s, MessageDelta(if s.stopReason == "" then "end_turn" else s.stopReason, Payload(s.usage)));
      case _ =>
    }
  }

  lemma StartLays(s: Enc, ev: StreamEvent)
    requires Kinded(s)
    ensures Lays(s, StartMessage(NoteUsage(s, ev), ev), [], s.blockType)
  {
    var n := NoteUsage(s, ev);
    PutLays(n, MessageStart(ev.responseID, ev.model, Payload(n.usage)));
    hide Layout, Payload;
  }

  lemma StepLays(s: Enc, ev: StreamEvent)
    requires Kinded(s)
    ensures Lays(s, Step(s, ev), StartsOf(s.blockType, ev.body), KindAfter(s.blockType, ev.body))
  {
    StartLays(s, ev);
    hide Layout, Dispatch, StartMessage, NoteUsage, StartsOf, KindAfter;
    DispatchLays(StartMessage(NoteUsage(s, ev), ev), ev.body);
    Unit(Layout(s.out));
  }

  /** What a run lays out depends on the events alone. */
  lemma {:induction false} RunLays(s: Enc, events: seq<StreamEvent>)
    requires Kinded(s)
    ensures Kinded(Run(s, events)) && Layout(Run(s, events).out) == Layout(s.out) + Laid(s.blockType, events)
    decreases |events|
  {
    hide Step, Layout, StartsOf, KindAfter;
    if events == [] {
      Unit(Layout(s.out));
    } else {
      var body := events[0].body;
      StepLays(s, events[0]);
      RunLays(Step(s, events[0]), events[1..]);
      Associate(Layout(s.out), StartsOf(s.blockType, body), Laid(KindAfter(s.blockType, body), events[1..]));
    }
  }

  lemma FinishLays(s: Enc)
    requires Kinded(s)
    ensures Layout(Finish(s).out) == Layout(s.out)
  {
    CloseLays(s);
    var c := Close(s);
    PutLays(c, MessageDelta(if c.stopReason == "" then "end_turn" else c.stopReason, Payload(c.usage)));
    var d := if !c.messageDeltaEmitted && (c.stopReason != "" || c.usage.Some?) then EmitMessageDelta(c) else c;
    PutLays(d, MessageEnd);
    hide Layout, Close;
  }

  // ----- with the search blocks -----

  function SearchHeaders(id: string, results: seq<WebSearchResult>): seq<Header> {
    [ServerToolUseHeader(id), SearchResultHeader(id, results)]
  }

  /** The search blocks put before the first text block, if there is one. */
  function Inserted(layout: seq<Header>, id: string, results: seq<WebSearchResult>): seq<Header>
    decreases |layout|
  {
    if layout == [] then []
    else if layout[0].TextHeader? then SearchHeaders(id, results) + layout
    else [layout[0]] + Inserted(layout[1..], id, results)
  }

  lemma {:induction false} InsertedBehind(pre: seq<Header>, post: seq<Header>, id: string,
      results: seq<WebSearchResult>)
    requires TextHeader !in pre
    ensures Inserted(pre + post, id, results) == pre + Inserted(post, id, results)
    decreases |pre|
  {
    if pre == [] {
      Unit(post);
      Unit(Inserted(post, id, results));
    } else {
      assert pre[0] in pre && pre[0] != TextHeader;
      assert (pre + post)[0] == pre[0] && (pre + post)[1..] == pre[1..] + post;
      InsertedBehind(pre[1..], post, id, results);
      assert pre == [pre[0]] + pre[1..];
      Associate([pre[0]], pre[1..], Inserted(post, id, results));
    }
  }

  lemma {:induction false} NoTextStarted(trace: seq<Sse>)
    requires forall k :: 0 <= k < |trace| ==> !StartsText(trace[k])
    ensures TextHeader !in Layout(trace)
  {
    if trace != [] {
      NoTextStarted(trace[..|trace| - 1]);
    }
  }

  lemma {:induction false} ShiftedLayout(trace: seq<Sse>, p: nat)
    ensures Layout(ShiftAll(trace, p)) == Layout(trace)
  {
    if trace != [] {
      var n := |trace| - 1;
      ShiftedLayout(trace[..n], p);
      assert ShiftAll(trace, p)[..n] == ShiftAll(trace[..n], p);
    }
  }

  lemma SearchLayout(p: nat, id: string, results: seq<WebSearchResult>)
    ensures Layout(SearchBlocks(p, id, results)) == SearchHeaders(id, results)
  {
    var b := SearchBlocks(p, id, results);
    assert b[..3] == [b[0], b[1], b[2]] && b[..3][..2] == [b[0], b[1]] && b[..3][..2][..1] == [b[0]];
    assert [b[0]][..0] == [];
    assert Layout([b[0]]) == [ServerToolUseHeader(id)] && Layout(b[..3][..2]) == [ServerToolUseHeader(id)];
  }

  /** Inserting the search blocks into a stream inserts them into its layout. */
  lemma InsertionLayout(trace: seq<Sse>, id: string, results: seq<WebSearchResult>)
    ensures Layout(WithSearch(trace, id, results)) == Inserted(Layout(trace), id, results)
  {
    var j := FirstText(trace);
    hide FirstText;
    var pre, post := trace[..j], trace[j..];
    assert pre + post == trace;
    NoTextStarted(pre);
    LayoutAppend(pre, post);
    InsertedBehind(Layout(pre), Layout(post), id, results);
    if j == |trace| {
      assert post == [] && Layout(post) == [];
      Unit(Layout(pre));
    } else {
      var p := trace[j].index;
      var ins := SearchBlocks(p, id, results);
      SearchLayout(p, id, results);
      ShiftedLayout(post, p);
      LayoutAppend(pre + ins, ShiftAll(post, p));
      LayoutAppend(pre, ins);
      TextLeads(post);
      Associate(Layout(pre), SearchHeaders(id, results), Layout(post));
      hide Layout, ShiftAll, SearchBlocks;
    }
  }

  lemma TextLeads(post: seq<Sse>)
    requires post != [] && StartsText(post[0])
    ensures Layout(post) != [] && Layout(post)[0] == TextHeader
  {
    assert post == [post[0]] + post[1..];
    LayoutAppend([post[0]], post[1..]);
    assert [post[0]][..0] == [];
    assert Layout([post[0]]) == [TextHeader];
  }

  /**
    For every upstream body and client, the blocks the client is shown: those the encoded
    events lay out, with the search blocks of the results captured before the first text.
   */
  lemma RelayedLayout(lines: seq<Line>, c: Client)
    ensures var laid := Laid("", Encoded(lines, c));
            Layout(RelayLines(Opening, lines, c).enc.out) ==
            if c.hasWebSearch then Inserted(laid, c.toolUseId, Captured(lines, [])) else laid
  {
    var s := Run(Init, Encoded(lines, c));
    RelayedIsPlain(lines, c);
    RunLays(Init, Encoded(lines, c));
    FinishLays(s);
    Unit(Laid("", Encoded(lines, c)));
    if c.hasWebSearch {
      InjectionIsInsertion(lines, c);
      InsertionLayout(PlainStream(lines, c).out, c.toolUseId, Captured(lines, []));
    }
    hide RelayLines, Encoded, Laid, WithSearch, Inserted, Captured, Run, Finish, Heard;
  }

  // ----- the blocks of the aggregated answer -----

  /** `injectWebSearchBlocks`: the search comes first, whatever else there is. */
  function SearchFirst(content: seq<Content>, c: Client, results: seq<WebSearchResult>): seq<Content> {
    if c.hasWebSearch then [Searched(c.toolUseId, results)] + content else content
  }

  /** The blocks one content block is sent as. */
  function SentAs(x: Content): seq<Header> {
    match x
    case Thinking(_) => [ThinkingHeader]
    case Text(_) => [TextHeader]
    case ToolUse(id, name, _) => [ToolUseHeader(id, name)]
    case Searched(id, results) => SearchHeaders(id, results)
  }

  function AnswerLayout(content: seq<Content>): seq<Header>
    decreases |content|
  {
    if content == [] then [] else SentAs(content[0]) + AnswerLayout(content[1..])
  }

  predicate IsSearch(h: Header) {
    h.ServerToolUseHeader? || h.SearchResultHeader?
  }

  function SearchPart(layout: seq<Header>): seq<Header>
    decreases |layout|
  {
    if layout == [] then [] else (if IsSearch(layout[0]) then [layout[0]] else []) + SearchPart(layout[1..])
  }

  predicate Searchless(layout: seq<Header>) {
    forall h :: h in layout ==> !IsSearch(h)
  }

  lemma {:induction false} NoSearchPart(layout: seq<Header>)
    requires Searchless(layout)
    ensures SearchPart(layout) == []
    decreases |layout|
  {
    if layout != [] {
      assert layout[0] in layout;
      NoSearchPart(layout[1..]);
    }
  }

  lemma SearchLeads(id: string, results: seq<WebSearchResult>, layout: seq<Header>)
    requires Searchless(layout)
    ensures SearchPart(SearchHeaders(id, results) + layout) == SearchHeaders(id, results)
  {
    var a, b := ServerToolUseHeader(id), SearchResultHeader(id, results);
    var all := SearchHeaders(id, results) + layout;
    assert all[0] == a && all[1..] == [b] + layout && ([b] + layout)[1..] == layout;
    NoSearchPart(layout);
    assert SearchPart([b] + layout) == [b];
  }

  lemma {:induction false} InsertedSearch(layout: seq<Header>, id: string, results: seq<WebSearchResult>)
    requires Searchless(layout)
    ensures SearchPart(Inserted(layout, id, results)) == if TextHeader in layout then SearchHeaders(id, results) else []
    decreases |layout|
  {
    if layout != [] {
      assert layout[0] in layout;
      if layout[0].TextHeader? {
        SearchLeads(id, results, layout);
      } else {
        InsertedSearch(layout[1..], id, results);
        var all := Inserted(layout, id, results);
        assert all[0] == layout[0] && all[1..] == Inserted(layout[1..], id, results);
        assert layout == [layout[0]] + layout[1..];
      }
    }
  }

  lemma {:induction false} AnswerSearchless(content: seq<Content>)
    requires forall x :: x in content ==> !x.Searched?
    ensures Searchless(AnswerLayout(content))
    decreases |content|
  {
    if content != [] {
      assert content[0] in content;
      AnswerSearchless(content[1..]);
    }
  }

  // ----- what the events say about it -----

  predicate NoSearchEvents(events: seq<StreamEvent>) {
    forall ev :: ev in events ==> !ev.body.WebSearch?
  }

  lemma {:induction false} LaidSearchless(kind: string, events: seq<StreamEvent>)
    requires NoSearchEvents(events)
    ensures Searchless(Laid(kind, events))
    decreases |events|
  {
    if events != [] {
      assert events[0] in events;
      LaidSearchless(KindAfter(kind, events[0].body), events[1..]);
    }
  }

  lemma DecodableSearchless(events: seq<StreamEvent>)
    requires ClosingDelta.Decodable(events)
    ensures NoSearchEvents(events)
  {
  }

  lemma NamedSearchless(events: seq<StreamEvent>, c: Client)
    requires NoSearchEvents(events)
    ensures NoSearchEvents(NamedAll(events, c))
  {
    forall ev | ev in NamedAll(events, c) ensures !ev.body.WebSearch? {
      var i :| 0 <= i < |events| && NamedAll(events, c)[i] == ev;
      assert events[i] in events;
    }
  }

  lemma EncodedSearchless(lines: seq<Line>, c: Client)
    ensures NoSearchEvents(Encoded(lines, c))
  {
    hide NoSearchEvents, NamedAll, Received;
    ClosingDelta.LinesDecodable(Received(lines, c));
    DecodableSearchless(AllEvents(Received(lines, c)));
    NamedSearchless(AllEvents(Received(lines, c)), c);
  }

  /** The first event that opens a block is text. */
  predicate TextFirst(events: seq<StreamEvent>)
    decreases |events|
  {
    events != [] && (HasText(events[0]) || (StartsOf("", events[0].body) == [] && TextFirst(events[1..])))
  }

  lemma {:induction false} TextLaidFirst(events: seq<StreamEvent>)
    ensures Laid("", events) != [] && Laid("", events)[0] == TextHeader <==> TextFirst(events)
    decreases |events|
  {
    if events != [] {
      TextLaidFirst(events[1..]);
    }
  }

  lemma {:induction false} TextLaid(kind: string, events: seq<StreamEvent>)
    requires kind != "text"
    ensures TextHeader in Laid(kind, events) <==> SpeaksText(events)
    decreases |events|
  {
    if events != [] && !HasText(events[0]) {
      TextLaid(KindAfter(kind, events[0].body), events[1..]);
    }
  }

  lemma InsertedFirst(layout: seq<Header>, id: string, results: seq<WebSearchResult>, other: seq<WebSearchResult>)
    requires Searchless(layout)
    ensures SearchHeaders(id, other) <= Inserted(layout, id, results) <==>
            layout != [] && layout[0] == TextHeader && results == other
  {
    var all := Inserted(layout, id, results);
    if layout != [] {
      assert layout[0] in layout;
      if layout[0].TextHeader? {
        assert all == SearchHeaders(id, results) + layout && all[1] == SearchHeaders(id, results)[1];
        assert results == other ==> all[..2] == SearchHeaders(id, other);
        assert SearchHeaders(id, other) <= all ==> all[1] == SearchResultHeader(id, other);
      } else {
        assert all[0] == layout[0];
      }
    }
  }

  /** The two layouts, given what is encoded and what is aggregated. */
  lemma LayoutsCompared(id: string, laid: seq<Header>, captured: seq<WebSearchResult>, content: seq<Content>,
      results: seq<WebSearchResult>)
    requires Searchless(laid) && forall x :: x in content ==> !x.Searched?
    ensures var stream, answer := Inserted(laid, id, captured), AnswerLayout([Searched(id, results)] + content);
            && (SearchPart(stream) == SearchPart(answer) <==> TextHeader in laid && captured == results)
            && SearchHeaders(id, results) <= answer
            && (SearchHeaders(id, results) <= stream <==>
                  laid != [] && laid[0] == TextHeader && captured == results)
  {
    AnswerSearchless(content);
    InsertedSearch(laid, id, captured);
    InsertedFirst(laid, id, captured, results);
    SearchLeads(id, results, AnswerLayout(content));
    var sent := [Searched(id, results)] + content;
    assert sent[0] == Searched(id, results) && sent[1..] == content;
    assert AnswerLayout(sent) == SearchHeaders(id, results) + AnswerLayout(content);
    hide AnswerLayout, SearchPart, Inserted, Searchless;
    assert SearchHeaders(id, captured)[1] == SearchResultHeader(id, captured);
    assert SearchHeaders(id, results)[1] == SearchResultHeader(id, results);
  }

  lemma FinalSearchless(a: Agg, parse: Parser)
    ensures forall x :: x in FinalContent(a, parse) ==> !x.Searched?
  {
  }

  /**
    For every body and client: the aggregated answer exists if and only if the body
    decodes, and then the stream shows the same search blocks as the answer if and only if
    text is encoded and the results captured before it are the last of all; and it opens
    with them, as the answer does, if and only if text is moreover what is shown first.
   */
  lemma SearchAgainstAnswer(lines: seq<Line>, c: Client, parse: Parser)
    ensures var r, events := OpenAIRelay.AggregateLines(OpenAIRelay.Blank, lines), Encoded(lines, c);
            && (r.Ok? <==> AllDecode(lines))
            && (r.Ok? ==>
                  var stream := Layout(RelayLines(Opening, lines, c).enc.out);
                  var answer := AnswerLayout(SearchFirst(FinalContent(r.value.agg, parse), c, r.value.results));
                  var known := Captured(lines, []) == r.value.results;
                  && (SearchPart(stream) == SearchPart(answer) <==> !c.hasWebSearch || (SpeaksText(events) && known))
                  && (c.hasWebSearch ==>
                        && SearchHeaders(c.toolUseId, r.value.results) <= answer
                        && (SearchHeaders(c.toolUseId, r.value.results) <= stream <==> TextFirst(events) && known)))
  {
    var r, events := OpenAIRelay.AggregateLines(OpenAIRelay.Blank, lines), Encoded(lines, c);
    OpenAIRelay.AggregateIsFold(OpenAIRelay.Blank, lines);
    if r.Ok? {
      var laid, content := Laid("", events), FinalContent(r.value.agg, parse);
      EncodedSearchless(lines, c);
      LaidSearchless("", events);
      FinalSearchless(r.value.agg, parse);
      RelayedLayout(lines, c);
      TextLaid("", events);
      TextLaidFirst(events);
      LayoutsCompared(c.toolUseId, laid, Captured(lines, []), content, r.value.results);
      if !c.hasWebSearch {
        AnswerSearchless(content);
        NoSearchPart(laid);
        NoSearchPart(AnswerLayout(content));
      }
      hide FinalContent, RelayLines, Layout, Laid, Encoded, Captured, AllDecode, OpenAIRelay.AggregateLines,
        SearchPart, Inserted, TextFirst, SpeaksText, Searchless, AnswerLayout, SearchHeaders;
    }
  }
}
