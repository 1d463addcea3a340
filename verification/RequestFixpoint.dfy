/**
  The wire form of a request is a fixpoint: decoding it and encoding it again gives the
  identical request, exactly when every image's media type can be parsed back, every
  tool result names its call, system messages lead as plain text, and the reasoning
  effort is settled.
 */
module RequestFixpoint {
  import opened Wrappers
  import opened JsonValues
  import opened Parameters
  import opened Request

  // ----- which requests survive -----

  predicate GoodImages(blocks: seq<ContentBlock>) {
    forall b :: b in blocks && b.ImageBlock? && b.image.Some? && b.image.value.data != "" ==>
        Parseable(b.image.value.mediaType)
  }

  /** Only what is encoded counts: a tool message sends its results and nothing else. */
  predicate PortableMessage(m: Message) {
    && (m.role != "tool" ==> GoodImages(m.content))
    && forall b :: b in m.content && b.ToolResultBlock? && b.result.Some? ==>
         b.result.value.toolCallID != "" && GoodImages(b.result.value.content)
  }

  predicate Portable(req: ChatRequest) {
    forall m :: m in req.messages ==> PortableMessage(m)
  }

  // ----- the same on the wire -----

  predicate SafePart(p: Part) {
    p.TextPart? ||
        (p.ImagePart? && p.url.Some? && ParseDataURI(p.url.value).Some? && ParseDataURI(p.url.value).value.data != "")
  }

  predicate SafeParts(parts: seq<Part>) {
    forall p :: p in parts ==> SafePart(p)
  }

  predicate SafeContent(c: WireContent) {
    c.Parts? ==> SafeParts(c.parts)
  }

  predicate Safe(w: WireMsg) {
    SafeContent(w.content) && (w.role == "tool" ==> w.toolCallID != "")
  }

  predicate AllSafe(ws: seq<WireMsg>) {
    forall w :: w in ws ==> Safe(w)
  }

  predicate AllPrinted(calls: seq<WireCall>) {
    forall c :: c in calls ==> c.arguments.Printed?
  }

  /** The frame every encoded message has. */
  predicate Framed(w: WireMsg) {
    && (w.content.Str? || (w.content.Parts? && w.content == Shape(w.content.parts)))
    && w.reasoning.None? && w.thinkingBlocks == []
    && AllPrinted(w.toolCalls)
    && (w.role == "tool" ==> w.toolCalls == [])
    && (w.role != "tool" ==> w.toolCallID == "")
  }

  predicate AllFramed(ws: seq<WireMsg>) {
    forall w :: w in ws ==> Framed(w)
  }

  /** What the decoder can hoist and the encoder send again. */
  predicate PlainSystem(w: WireMsg) {
    w.content.Str? && w.toolCalls == []
  }

  predicate Shaped(w: WireMsg) {
    Framed(w) && (w.role == "system" ==> PlainSystem(w))
  }

  /** System messages stand in front, as plain text and without calls. */
  predicate SystemsLead(ws: seq<WireMsg>) {
    forall i :: 0 <= i < |ws| && ws[i].role == "system" ==> PlainSystem(ws[i]) && (i == 0 || ws[i - 1].role == "system")
  }

  predicate AllShaped(ws: seq<WireMsg>) {
    forall w :: w in ws ==> Shaped(w)
  }

  predicate OnlySystem(ws: seq<WireMsg>) {
    forall w :: w in ws ==> w.role == "system"
  }

  predicate NoSystem(ws: seq<WireMsg>) {
    forall w :: w in ws ==> w.role != "system"
  }

  // ----- encoded parts are safe exactly for good images -----

  lemma {:induction false} PartsSafe(blocks: seq<ContentBlock>)
    ensures SafeParts(PartsOf(blocks)) <==> GoodImages(blocks)
  {
    if blocks != [] {
      var n := |blocks| - 1;
      var b := blocks[n];
      PartsSafe(blocks[..n]);
      assert blocks == blocks[..n] + [b];
      if b.ImageBlock? && b.image.Some? && b.image.value.data != "" {
        FormattedParses(b.image.value);
        var p := ImagePart(Some(FormatDataURI(b.image.value)));
        hide FormatDataURI, ParseDataURI, Parseable;
        assert PartsOf(blocks) == PartsOf(blocks[..n]) + [p];
        assert p in PartsOf(blocks);
        assert SafePart(p) <==> Parseable(b.image.value.mediaType);
        SplitSafe(PartsOf(blocks[..n]), [p]);
      } else {
        SplitSafe(PartsOf(blocks[..n]), PartOf(b));
      }
    }
  }

  lemma SplitSafe(a: seq<Part>, b: seq<Part>)
    ensures SafeParts(a + b) <==> SafeParts(a) && SafeParts(b)
  {
  }

  lemma ErrorMarkSafe(parts: seq<Part>)
    ensures SafeParts(MarkError(parts)) <==> SafeParts(parts)
  {
  }

  lemma ShapeSafe(parts: seq<Part>)
    ensures SafeContent(Shape(parts)) <==> SafeParts(parts)
    ensures !Shape(parts).Absent? && !Shape(parts).Unreadable?
    ensures Shape(parts).Parts? ==> Shape(parts) == Shape(Shape(parts).parts)
  {
  }

  lemma ResultSafe(r: ToolResult)
    ensures SafeContent(ResultContent(r)) <==> GoodImages(r.content)
    ensures Framed(Plain("tool", ResultContent(r), [], r.toolCallID))
  {
    PartsSafe(r.content);
    ErrorMarkSafe(PartsOf(r.content));
    ShapeSafe(if r.isError then MarkError(PartsOf(r.content)) else PartsOf(r.content));
  }

  predicate GoodResults(blocks: seq<ContentBlock>) {
    forall b :: b in blocks && b.ToolResultBlock? && b.result.Some? ==>
      b.result.value.toolCallID != "" && GoodImages(b.result.value.content)
  }

  lemma {:induction false} ResultsSafe(blocks: seq<ContentBlock>)
    ensures AllSafe(ResultsOf(blocks)) <==> GoodResults(blocks)
    ensures AllFramed(ResultsOf(blocks)) && NoSystem(ResultsOf(blocks))
  {
    if blocks != [] {
      var n := |blocks| - 1;
      var b := blocks[n];
      ResultsSafe(blocks[..n]);
      assert blocks == blocks[..n] + [b];
      if b.ToolResultBlock? && b.result.Some? {
        ResultSafe(b.result.value);
        hide ResultContent, GoodImages, SafeContent, Framed;
        var w := Plain("tool", ResultContent(b.result.value), [], b.result.value.toolCallID);
        assert ResultsOf(blocks) == ResultsOf(blocks[..n]) + [w];
        assert w in ResultsOf(blocks);
      } else {
        assert ResultsOf(blocks) == ResultsOf(blocks[..n]);
      }
    }
  }

  lemma {:induction false} CallsPrinted(blocks: seq<ContentBlock>)
    ensures AllPrinted(CallsOf(blocks))
  {
    if blocks != [] {
      CallsPrinted(blocks[..|blocks| - 1]);
    }
  }

  lemma SpokenSafe(m: Message)
    requires m.role != "tool"
    ensures var msg := Plain(m.role, Shape(PartsOf(m.content)), CallsOf(m.content), "");
            Framed(msg) && (Safe(msg) <==> GoodImages(m.content))
  {
    PartsSafe(m.content);
    CallsPrinted(m.content);
    ShapeSafe(PartsOf(m.content));
    hide PartsOf, CallsOf, GoodImages, AllPrinted, SafeParts;
  }

  lemma NothingIsGood(m: Message)
    requires PartsOf(m.content) == []
    ensures GoodImages(m.content)
  {
    PartsSafe(m.content);
  }

  lemma MessageSafe(m: Message)
    ensures AllSafe(EncodeMessage(m)) <==> PortableMessage(m)
    ensures AllFramed(EncodeMessage(m)) && (m.role != "system" ==> NoSystem(EncodeMessage(m)))
  {
    var parts, calls, results := PartsOf(m.content), CallsOf(m.content), ResultsOf(m.content);
    var msg := Plain(m.role, Shape(parts), calls, "");
    ResultsSafe(m.content);
    assert PortableMessage(m) <==> (m.role != "tool" ==> GoodImages(m.content)) && GoodResults(m.content);
    assert AllSafe([]) && AllFramed([]) && NoSystem([]);
    if m.role != "tool" {
      SpokenSafe(m);
      if parts == [] { NothingIsGood(m); }
      hide Safe, Framed, AllSafe, AllFramed, NoSystem, GoodImages, GoodResults, PortableMessage, PartsOf,
        CallsOf, ResultsOf, Shape;
      One(msg);
      if parts == [] && calls == [] && results == [] {
        assert EncodeMessage(m) == [];
      } else if results != [] && m.role == "user" {
        SplitAll(results, [msg]);
        Unit(results);
        assert EncodeMessage(m) == if parts == [] then results else results + [msg];
      } else {
        SplitAll([msg], results);
        assert EncodeMessage(m) == [msg] + results;
      }
    }
  }

  lemma One(w: WireMsg)
    ensures (AllSafe([w]) <==> Safe(w)) && (AllFramed([w]) <==> Framed(w)) && (NoSystem([w]) <==> w.role != "system")
  {
  }

  lemma SplitAll(a: seq<WireMsg>, b: seq<WireMsg>)
    ensures AllSafe(a + b) <==> AllSafe(a) && AllSafe(b)
    ensures AllFramed(a + b) <==> AllFramed(a) && AllFramed(b)
    ensures NoSystem(a + b) <==> NoSystem(a) && NoSystem(b)
  {
  }

  lemma {:induction false} MessagesSafe(messages: seq<Message>)
    ensures AllSafe(EncodeMessages(messages)) <==> forall m :: m in messages ==> PortableMessage(m)
    ensures AllFramed(EncodeMessages(messages))
    ensures (forall m :: m in messages ==> m.role != "system") ==> NoSystem(EncodeMessages(messages))
  {
    hide PortableMessage, EncodeMessage, Framed, Safe;
    if messages != [] {
      var n := |messages| - 1;
      assert messages[n] in messages;
      MessagesSafe(messages[..n]);
      MessageSafe(messages[n]);
      SplitAll(EncodeMessages(messages[..n]), EncodeMessage(messages[n]));
      hide AllSafe, AllFramed, NoSystem;
      assert messages == messages[..n] + [messages[n]];
      assert forall m :: m in messages <==> m in messages[..n] || m == messages[n];
    }
  }

  // ----- decoding a shaped, safe message and encoding it again -----

  lemma Snoc(a: seq<ContentBlock>, b: ContentBlock)
    ensures PartsOf(a + [b]) == PartsOf(a) + PartOf(b)
    ensures CallsOf(a + [b]) == CallsOf(a) + CallOf(b)
    ensures ResultsOf(a + [b]) == ResultsOf(a) + ResultOf(b)
  {
  }

  lemma {:induction false} Append(a: seq<ContentBlock>, b: seq<ContentBlock>)
    ensures PartsOf(a + b) == PartsOf(a) + PartsOf(b)
    ensures CallsOf(a + b) == CallsOf(a) + CallsOf(b)
    ensures ResultsOf(a + b) == ResultsOf(a) + ResultsOf(b)
  {
    hide PartOf, CallOf, ResultOf;
    if b == [] {
      assert a + b == a;
    } else {
      var n := |b| - 1;
      Append(a, b[..n]);
      Snoc(a + b[..n], b[n]);
      Snoc(b[..n], b[n]);
      Associate(a, b[..n], [b[n]]);
      assert b[..n] + [b[n]] == b;
      Associate(PartsOf(a), PartsOf(b[..n]), PartOf(b[n]));
      Associate(CallsOf(a), CallsOf(b[..n]), CallOf(b[n]));
      Associate(ResultsOf(a), ResultsOf(b[..n]), ResultOf(b[n]));
      hide PartsOf, CallsOf, ResultsOf;
    }
  }

  lemma PartBack(p: Part)
    requires SafePart(p)
    ensures |BlockOf(p)| == 1 && PartOf(BlockOf(p)[0]) == [p] && CallOf(BlockOf(p)[0]) == [] &&
            ResultOf(BlockOf(p)[0]) == []
  {
    if p.ImagePart? {
      ParsedFormatsBack(p.url.value);
    }
  }

  lemma {:induction false} PartsBack(parts: seq<Part>)
    requires SafeParts(parts)
    ensures PartsOf(BlocksOf(parts)) == parts && CallsOf(BlocksOf(parts)) == [] && ResultsOf(BlocksOf(parts)) == []
    ensures parts != [] ==> BlocksOf(parts) != []
  {
    hide SafePart, BlockOf, PartOf, CallOf, ResultOf;
    if parts != [] {
      var n := |parts| - 1;
      assert parts[n] in parts;
      PartsBack(parts[..n]);
      PartBack(parts[n]);
      var a, b := BlocksOf(parts[..n]), BlockOf(parts[n]);
      assert b == [b[0]];
      Snoc(a, b[0]);
      hide PartsOf, CallsOf, ResultsOf;
      LastOf(parts);
    }
  }

  lemma Alone(b: ContentBlock)
    ensures PartsOf([b]) == PartOf(b) && CallsOf([b]) == CallOf(b) && ResultsOf([b]) == ResultOf(b)
  {
  }

  lemma ContentBack(c: WireContent)
    requires (c.Str? || (c.Parts? && c == Shape(c.parts))) && SafeContent(c)
    ensures DecodeContent(c).Ok?
    ensures var inner := DecodeContent(c).value;
            inner != [] && PartsOf(inner) != [] && Shape(PartsOf(inner)) == c && CallsOf(inner) == [] &&
                ResultsOf(inner) == []
  {
    if c.Str? {
      Alone(TextBlock(Some(c.text)));
    } else {
      PartsBack(c.parts);
    }
  }

  lemma PrintedPrefix(calls: seq<WireCall>)
    requires AllPrinted(calls) && calls != []
    ensures AllPrinted(calls[..|calls| - 1]) && calls[|calls| - 1].arguments.Printed?
  {
  }

  lemma {:induction false} CallsBack(calls: seq<WireCall>)
    requires AllPrinted(calls)
    ensures CallsOf(CallBlocks(calls)) == calls && PartsOf(CallBlocks(calls)) == [] &&
            ResultsOf(CallBlocks(calls)) == []
  {
    hide AllPrinted;
    if calls != [] {
      var n := |calls| - 1;
      var c := calls[n];
      PrintedPrefix(calls);
      CallsBack(calls[..n]);
      CallBack(c);
      var b := ToolCallBlock(Some(ToolCall(c.id, c.name, ArgumentsOf(c.arguments))));
      Snoc(CallBlocks(calls[..n]), b);
      assert CallBlocks(calls) == CallBlocks(calls[..n]) + [b];
      LastOf(calls);
      hide *;
    }
  }

  lemma CallBack(c: WireCall)
    requires c.arguments.Printed?
    ensures var b := ToolCallBlock(Some(ToolCall(c.id, c.name, ArgumentsOf(c.arguments))));
            CallOf(b) == [c] && PartOf(b) == [] && ResultOf(b) == []
  {
  }

  lemma ToolMessageDecodes(w: WireMsg, inner: seq<ContentBlock>)
    requires Shaped(w) && w.role == "tool" && w.toolCallID != "" && DecodeContent(w.content) == Ok(inner)
    ensures DecodeBlocks(w) == Ok(inner + [ToolResultBlock(Some(ToolResult(w.toolCallID, inner, false)))])
  {
    assert CallBlocks([]) == [];
    hide DecodeContent, Shape;
    Unit(inner);
  }

  lemma ToolMessageBack(w: WireMsg)
    requires Shaped(w) && Safe(w) && w.role == "tool"
    ensures DecodeBlocks(w).Ok? && DecodeBlocks(w).value != []
    ensures EncodeMessage(Message(w.role, DecodeBlocks(w).value)) == [w]
  {
    ContentBack(w.content);
    var inner := DecodeContent(w.content).value;
    var result := ToolResultBlock(Some(ToolResult(w.toolCallID, inner, false)));
    ToolMessageDecodes(w, inner);
    Snoc(inner, result);
    ResultBack(w, inner);
    Unit([w]);
    hide PartsOf, CallsOf, ResultsOf, ResultOf, DecodeContent, DecodeBlocks, SafeContent, Shape;
    assert ResultsOf(inner + [result]) == [w];
  }

  lemma ResultBack(w: WireMsg, inner: seq<ContentBlock>)
    requires Shaped(w) && w.role == "tool" && Shape(PartsOf(inner)) == w.content
    ensures ResultOf(ToolResultBlock(Some(ToolResult(w.toolCallID, inner, false)))) == [w]
  {
  }

  lemma SpokenMessageBack(w: WireMsg)
    requires Shaped(w) && Safe(w) && w.role != "system" && w.role != "tool"
    ensures DecodeBlocks(w).Ok? && DecodeBlocks(w).value != []
    ensures EncodeMessage(Message(w.role, DecodeBlocks(w).value)) == [w]
  {
    ContentBack(w.content);
    CallsBack(w.toolCalls);
    var inner, calls := DecodeContent(w.content).value, CallBlocks(w.toolCalls);
    Append(inner, calls);
    hide PartsOf, CallsOf, ResultsOf, CallBlocks, DecodeContent, SafeContent, Shape;
    Unit(inner);
    Unit(inner + calls);
    var blocks := DecodeBlocks(w).value;
    assert blocks == inner + calls;
    Unit(PartsOf(inner));
    Unit(w.toolCalls);
    hide DecodeBlocks;
    OneMessage(Message(w.role, blocks), PartsOf(inner), w.toolCalls);
  }

  lemma OneMessage(m: Message, parts: seq<Part>, calls: seq<WireCall>)
    requires PartsOf(m.content) == parts != [] && CallsOf(m.content) == calls && ResultsOf(m.content) == []
    requires m.role != "tool"
    ensures EncodeMessage(m) == [Plain(m.role, Shape(parts), calls, "")]
  {
  }

  /** Decoding one encoded message and encoding it again gives back that message. */
  lemma MessageBack(w: WireMsg)
    requires Shaped(w) && Safe(w) && w.role != "system"
    ensures DecodeBlocks(w).Ok? && DecodeBlocks(w).value != []
    ensures EncodeMessage(Message(w.role, DecodeBlocks(w).value)) == [w]
  {
    hide Shaped, Safe, DecodeBlocks, EncodeMessage;
    if w.role == "tool" {
      ToolMessageBack(w);
    } else {
      SpokenMessageBack(w);
    }
  }

  lemma {:induction false} SystemBack(ws: seq<WireMsg>)
    requires AllShaped(ws) && OnlySystem(ws)
    ensures DecodeMessages(ws).Ok?
    ensures var c := DecodeMessages(ws).value; c.messages == [] && EncodeSystem(c.system) == ws
  {
    if ws != [] {
      var n := |ws| - 1;
      assert ws[n] in ws;
      SystemBack(ws[..n]);
      var c := DecodeMessages(ws[..n]).value;
      var b := TextBlock(Some(ws[n].content.text));
      assert (c.system + [b])[..|c.system|] == c.system;
      assert DecodeMessages(ws).value.system == c.system + [b];
      assert Plain("system", Str(ws[n].content.text), [], "") == ws[n];
    }
  }

  lemma DialoguePrefix(ws: seq<WireMsg>)
    requires AllShaped(ws) && AllSafe(ws) && NoSystem(ws) && ws != []
    ensures AllShaped(ws[..|ws| - 1]) && AllSafe(ws[..|ws| - 1]) && NoSystem(ws[..|ws| - 1])
    ensures var w := ws[|ws| - 1]; Shaped(w) && Safe(w) && w.role != "system"
  {
  }

  lemma {:induction false} DialogueBack(system: seq<WireMsg>, ws: seq<WireMsg>)
    requires AllShaped(system) && OnlySystem(system)
    requires AllShaped(ws) && AllSafe(ws) && NoSystem(ws)
    ensures DecodeMessages(system + ws).Ok?
    ensures var c := DecodeMessages(system + ws).value;
            EncodeSystem(c.system) == system && EncodeMessages(c.messages) == ws
  {
    hide DecodeBlocks, EncodeMessage, Shaped, Safe, AllShaped, AllSafe, NoSystem, OnlySystem;
    if ws == [] {
      assert system + ws == system;
      SystemBack(system);
    } else {
      var n := |ws| - 1;
      var w := ws[n];
      DialoguePrefix(ws);
      DialogueBack(system, ws[..n]);
      MessageBack(w);
      var c := DecodeMessages(system + ws[..n]).value;
      var m := Message(w.role, DecodeBlocks(w).value);
      DecodeSnoc(system + ws[..n], w);
      EncodeSnoc(c.messages, m);
      LastOf(ws);
      Associate(system, ws[..n], [w]);
      hide *;
    }
  }

  lemma DecodeSnoc(ws: seq<WireMsg>, w: WireMsg)
    requires DecodeMessages(ws).Ok? && w.role != "system" && DecodeBlocks(w).Ok? && DecodeBlocks(w).value != []
    ensures var c := DecodeMessages(ws).value;
            DecodeMessages(ws + [w]) == Ok(c.(messages := c.messages + [Message(w.role, DecodeBlocks(w).value)]))
  {
  }

  lemma EncodeSnoc(messages: seq<Message>, m: Message)
    ensures EncodeMessages(messages + [m]) == EncodeMessages(messages) + EncodeMessage(m)
  {
  }

  // ----- whatever is decoded encodes safely -----

  lemma DecodedBlockGood(p: Part)
    ensures GoodImages(BlockOf(p)) && GoodResults(BlockOf(p))
  {
    if p.ImagePart? && p.url.Some? && p.url.value != "" && ParseDataURI(p.url.value).Some? {
      ParsedFormatsBack(p.url.value);
    }
    hide ParseDataURI, FormatDataURI;
  }

  lemma GoodJoin(a: seq<ContentBlock>, b: seq<ContentBlock>)
    requires GoodImages(a) && GoodImages(b) && GoodResults(a) && GoodResults(b)
    ensures GoodImages(a + b) && GoodResults(a + b)
  {
    hide Parseable;
  }

  lemma {:induction false} DecodedBlocksGood(parts: seq<Part>)
    ensures GoodImages(BlocksOf(parts)) && GoodResults(BlocksOf(parts))
  {
    if parts != [] {
      var n := |parts| - 1;
      DecodedBlocksGood(parts[..n]);
      DecodedBlockGood(parts[n]);
      hide BlockOf, GoodImages, GoodResults;
      GoodJoin(BlocksOf(parts[..n]), BlockOf(parts[n]));
    }
  }

  lemma {:induction false} ThoughtsGood(blocks: seq<WireThinking>)
    ensures forall b :: b in ThoughtsOf(blocks) ==> b.ThinkingBlock?
  {
    if blocks != [] {
      ThoughtsGood(blocks[..|blocks| - 1]);
    }
  }

  lemma {:induction false} CallBlocksGood(calls: seq<WireCall>)
    ensures forall b :: b in CallBlocks(calls) ==> b.ToolCallBlock?
  {
    if calls != [] {
      CallBlocksGood(calls[..|calls| - 1]);
    }
  }

  lemma DecodedPortable(w: WireMsg)
    requires DecodeBlocks(w).Ok?
    ensures PortableMessage(Message(w.role, DecodeBlocks(w).value))
  {
    ThoughtsGood(w.thinkingBlocks);
    CallBlocksGood(w.toolCalls);
    var inner := DecodeContent(w.content).value;
    if w.content.Parts? {
      DecodedBlocksGood(w.content.parts);
    }
    assert GoodImages(inner) && GoodResults(inner);
    hide BlocksOf, ThoughtsOf, CallBlocks, Parseable;
    var blocks := DecodeBlocks(w).value;
    var tail :=
      if w.role == "tool" && w.toolCallID != ""
      then [ToolResultBlock(Some(ToolResult(w.toolCallID, inner, false)))] else [];
    assert blocks == ThinkingOf(w) + inner + CallBlocks(w.toolCalls) + tail;
    assert forall b :: b in ThinkingOf(w) ==> b.ThinkingBlock?;
  }

  lemma {:induction false} DecodedMessagesPortable(ws: seq<WireMsg>)
    requires DecodeMessages(ws).Ok?
    ensures forall m :: m in DecodeMessages(ws).value.messages ==> m.role != "system" && PortableMessage(m)
  {
    if ws != [] {
      var w := ws[|ws| - 1];
      DecodedMessagesPortable(ws[..|ws| - 1]);
      hide PortableMessage, DecodeBlocks;
      if w.role != "system" {
        DecodedPortable(w);
      }
    }
  }

  // ----- re-roling and tools -----

  lemma {:induction false} SystemShape(system: seq<ContentBlock>)
    ensures AllShaped(EncodeSystem(system)) && AllSafe(EncodeSystem(system))
    ensures AllFramed(EncodeSystem(system)) && OnlySystem(EncodeSystem(system))
  {
    if system != [] {
      SystemShape(system[..|system| - 1]);
    }
  }

  /** Re-roling once is enough. */
  lemma ReRoleOnce(ws: seq<WireMsg>)
    ensures ReRole(ReRole(ws)) == ReRole(ws)
  {
  }

  /** A message as a user's: same frame, same safety. */
  lemma UserKeeps(w: WireMsg)
    requires w.role == "assistant"
    ensures Framed(w) ==> Framed(w.(role := "user"))
    ensures Safe(w.(role := "user")) <==> Safe(w)
  {
  }

  /** Re-roling keeps frames, safety and where the system messages stand. */
  lemma ReRoleKeeps(ws: seq<WireMsg>)
    ensures AllFramed(ws) ==> AllFramed(ReRole(ws))
    ensures NoSystem(ws) ==> NoSystem(ReRole(ws))
    ensures AllSafe(ReRole(ws)) <==> AllSafe(ws)
    ensures SystemsLead(ws) ==> SystemsLead(ReRole(ws))
  {
    if ReRole(ws) != ws {
      var n := |ws| - 1;
      var last := ws[n].(role := "user");
      LastOf(ws);
      assert ReRole(ws) == ws[..n] + [last];
      UserKeeps(ws[n]);
      assert SystemsLead(ws) ==> SystemsLead(ReRole(ws));
      hide Safe, Framed, AllSafe, AllFramed, NoSystem, ReRole, SystemsLead;
      SplitAll(ws[..n], [ws[n]]);
      SplitAll(ws[..n], [last]);
      One(ws[n]);
      One(last);
    }
  }

  lemma {:induction false} ToolsBack(tools: seq<WireTool>)
    requires forall t :: t in tools ==> t.kind == "function"
    ensures FunctionTools(DecodeTools(tools)) == tools && !WantsSearch(DecodeTools(tools))
  {
    if tools != [] {
      var n := |tools| - 1;
      assert tools[n] in tools;
      ToolsBack(tools[..n]);
      var t := Tool("", tools[n].name, tools[n].description, tools[n].parameters);
      ToolSnoc(DecodeTools(tools[..n]), t);
      assert DecodeTools(tools) == DecodeTools(tools[..n]) + [t];
      hide FunctionTools, WantsSearch, DecodeTools;
      LastOf(tools);
    }
  }

  lemma ToolSnoc(tools: seq<Tool>, t: Tool)
    ensures FunctionTools(tools + [t]) == FunctionTools(tools) +
              if t.kind == "web_search" then [] else [WireTool("function", t.name, t.description, t.schema)]
    ensures WantsSearch(tools + [t]) == (t.kind == "web_search" || WantsSearch(tools))
  {
  }

  lemma SearchToolIgnored(tools: seq<Tool>)
    ensures var more := tools + [Tool("web_search", "", "", JNull)];
            FunctionTools(more) == FunctionTools(tools) && WantsSearch(more)
  {
  }

  lemma {:induction false} EncodedToolsAreFunctions(tools: seq<Tool>)
    ensures forall t :: t in FunctionTools(tools) ==> t.kind == "function"
  {
    if tools != [] {
      EncodedToolsAreFunctions(tools[..|tools| - 1]);
    }
  }

  lemma ToolsFixed(req: ChatRequest, again: ChatRequest, to: Upstream)
    requires var w := Encode(req, to);
             again.tools == DecodeTools(w.tools) + if w.webSearch then [Tool("web_search", "", "", JNull)] else []
    requires WireMessages(again) == WireMessages(req)
    ensures var w, v := Encode(req, to), Encode(again, to); v.tools == w.tools && v.webSearch == w.webSearch
  {
    var w := Encode(req, to);
    EncodedToolsAreFunctions(req.tools);
    ToolsBack(w.tools);
    SearchToolIgnored(DecodeTools(w.tools));
    hide WireMessages, FunctionTools, WantsSearch, DecodeTools, EncodeSettings;
    assert DecodeTools(w.tools) + [] == DecodeTools(w.tools);
    assert FunctionTools(again.tools) == w.tools && WantsSearch(again.tools) == w.webSearch;
  }

  // ----- the fixpoint of the messages -----

  lemma {:induction false} FramedDecodes(ws: seq<WireMsg>)
    requires AllFramed(ws)
    ensures DecodeMessages(ws).Ok?
  {
    if ws != [] {
      assert ws[|ws| - 1] in ws;
      FramedDecodes(ws[..|ws| - 1]);
    }
  }

  lemma WireFramed(req: ChatRequest)
    ensures AllFramed(WireMessages(req))
    ensures AllSafe(WireMessages(req)) <==> Portable(req)
    ensures ReRole(WireMessages(req)) == WireMessages(req)
  {
    var all := EncodeSystem(req.system) + EncodeMessages(req.messages);
    SystemShape(req.system);
    MessagesSafe(req.messages);
    hide AllSafe, AllShaped, AllFramed, OnlySystem, EncodeSystem, EncodeMessages, PortableMessage, ReRole;
    SplitAll(EncodeSystem(req.system), EncodeMessages(req.messages));
    ReRoleKeeps(all);
    ReRoleOnce(all);
  }

  /** Leading system messages and a dialogue without any make up the list. */
  lemma {:induction false} SystemsSplit(ws: seq<WireMsg>) returns (n: nat)
    requires AllFramed(ws) && SystemsLead(ws)
    ensures n <= |ws| && OnlySystem(ws[..n]) && NoSystem(ws[n..]) && AllShaped(ws[..n]) && AllShaped(ws[n..])
  {
    n := 0;
    while n < |ws| && ws[n].role == "system"
      invariant n <= |ws| && forall k :: 0 <= k < n ==> ws[k].role == "system"
    {
      n := n + 1;
    }
    NoneAfter(ws, n);
  }

  lemma NoneAfter(ws: seq<WireMsg>, n: nat)
    requires SystemsLead(ws) && n <= |ws| && (n < |ws| ==> ws[n].role != "system")
    ensures forall k :: n <= k < |ws| ==> ws[k].role != "system"
  {
    if n < |ws| {
      var k := n;
      while k < |ws|
        invariant n < k + 1 && k <= |ws| && forall j :: n <= j < k ==> ws[j].role != "system"
      {
        assert k == n || ws[k - 1].role != "system";
        k := k + 1;
      }
    }
  }

  /** The messages an encoded list decodes to never have the system role, so their encoding leads with its systems. */
  lemma DecodedLeads(again: ChatRequest, ws: seq<WireMsg>)
    requires DecodeMessages(ws).Ok? && again.system == DecodeMessages(ws).value.system
    requires again.messages == DecodeMessages(ws).value.messages
    ensures AllSafe(WireMessages(again)) && SystemsLead(WireMessages(again))
  {
    DecodedMessagesPortable(ws);
    WireFramed(again);
    MessagesSafe(again.messages);
    SystemShape(again.system);
    LeadingSystems(EncodeSystem(again.system), EncodeMessages(again.messages));
    ReRoleKeeps(EncodeSystem(again.system) + EncodeMessages(again.messages));
    hide DecodeMessages, EncodeMessages, EncodeSystem, AllSafe, SystemsLead;
  }

  lemma LeadingSystems(system: seq<WireMsg>, dialogue: seq<WireMsg>)
    requires OnlySystem(system) && AllShaped(system) && NoSystem(dialogue)
    ensures SystemsLead(system + dialogue)
  {
    var ws := system + dialogue;
    assert forall j :: |system| <= j < |ws| ==> ws[j] in dialogue;
    forall i | 0 <= i < |ws| && ws[i].role == "system"
      ensures PlainSystem(ws[i]) && (i == 0 || ws[i - 1].role == "system")
    {
      assert system[i] in system;
    }
  }

  /** What encoded messages decode to is encoded to the same messages exactly when they are safe and systems lead. */
  lemma MessagesFixed(again: ChatRequest, ws: seq<WireMsg>)
    requires AllFramed(ws) && ReRole(ws) == ws
    requires DecodeMessages(ws).Ok? && again.system == DecodeMessages(ws).value.system
    requires again.messages == DecodeMessages(ws).value.messages
    ensures WireMessages(again) == ws <==> AllSafe(ws) && SystemsLead(ws)
  {
    hide *;
    DecodedLeads(again, ws);
    if AllSafe(ws) && SystemsLead(ws) {
      LeadsAreFixed(again, ws);
    }
  }

  lemma LeadsAreFixed(again: ChatRequest, ws: seq<WireMsg>)
    requires AllFramed(ws) && ReRole(ws) == ws && AllSafe(ws) && SystemsLead(ws)
    requires DecodeMessages(ws).Ok? && again.system == DecodeMessages(ws).value.system
    requires again.messages == DecodeMessages(ws).value.messages
    ensures WireMessages(again) == ws
  {
    hide *;
    var n := SystemsSplit(ws);
    SafeRest(ws, n);
    assert ws == ws[..n] + ws[n..];
    SplitFixed(again, ws[..n], ws[n..]);
  }

  lemma SplitFixed(again: ChatRequest, system: seq<WireMsg>, dialogue: seq<WireMsg>)
    requires OnlySystem(system) && AllShaped(system)
    requires NoSystem(dialogue) && AllShaped(dialogue) && AllSafe(dialogue)
    requires ReRole(system + dialogue) == system + dialogue
    requires DecodeMessages(system + dialogue).Ok? && again.system == DecodeMessages(system + dialogue).value.system
    requires again.messages == DecodeMessages(system + dialogue).value.messages
    ensures WireMessages(again) == system + dialogue
  {
    hide AllSafe, AllShaped, OnlySystem, NoSystem, DecodeMessages, EncodeMessages, EncodeSystem, ReRole;
    DialogueBack(system, dialogue);
  }

  lemma SafeRest(ws: seq<WireMsg>, n: nat)
    requires AllSafe(ws) && n <= |ws|
    ensures AllSafe(ws[n..])
  {
  }

  // ----- the fixpoint -----

  /**
    Every encoded request decodes if and only if the upstream model is named, and then
    encoding the decoded request again gives the identical wire request if and only if
    the request is portable, its system messages lead as plain text, and the reasoning
    effort sent is settled.
   */
  lemma WireFixpoint(req: ChatRequest, to: Upstream)
    ensures var w := Encode(req, to);
            && (Decode(w).Ok? <==> to.model != "")
            && (to.model != "" ==>
                  (Encode(Decode(w).value, to) == w <==>
                     Portable(req) && SystemsLead(w.messages) && Settled(w.settings.effort, to)))
  {
    var w := Encode(req, to);
    WireFramed(req);
    FramedDecodes(w.messages);
    SettingsFixpoint(req.toolChoice, req.params, to);
    if to.model != "" {
      var again := Decode(w).value;
      MessagesFixed(again, w.messages);
      if WireMessages(again) == w.messages {
        ToolsFixed(req, again, to);
      }
      hide AllSafe, AllFramed, Portable, SystemsLead, Settled, WireMessages, DecodeMessages, EncodeSettings,
        DecodeSettings, FunctionTools, WantsSearch, InferTools, DecodeTools;
    }
  }
}
