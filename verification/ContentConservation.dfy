/**
  What a request says survives its encoding: the text of the system prompt and the text
  and images of the speakers reach the wire in order, nothing added, and every tool
  result reports its own content, marked once if it is an error. Two things are not
  sent: an image in the system prompt, and what a message with role `tool` holds besides
  results. Nothing is lost exactly when there is none of the first, and none of the
  second in a message without results.
 */
module ContentConservation {
  import opened Wrappers
  import opened Request

  /** Text and image URIs, each in order of appearance. */
  datatype Shown = Shown(text: string, images: seq<string>)

  const Nothing := Shown("", [])

  function Plus(a: Shown, b: Shown): Shown {
    Shown(a.text + b.text, a.images + b.images)
  }

  lemma PlusNothing(a: Shown)
    ensures Plus(a, Nothing) == a == Plus(Nothing, a)
  {
  }

  lemma PlusAssociates(a: Shown, b: Shown, c: Shown)
    ensures Plus(Plus(a, b), c) == Plus(a, Plus(b, c))
  {
    Associate(a.text, b.text, c.text);
    Associate(a.images, b.images, c.images);
  }

  // ----- in the canonical request -----

  function BlockShows(b: ContentBlock): Shown {
    if b.TextBlock? && b.text.Some? then Shown(b.text.value, [])
    else if b.ImageBlock? && b.image.Some? && b.image.value.data != "" then Shown("", [FormatDataURI(b.image.value)])
    else Nothing
  }

  function BlocksShow(blocks: seq<ContentBlock>): Shown {
    if blocks == [] then Nothing else Plus(BlocksShow(blocks[..|blocks| - 1]), BlockShows(blocks[|blocks| - 1]))
  }

  /** The system prompt is text only. */
  function SystemShows(system: seq<ContentBlock>): Shown {
    if system == [] then Nothing
    else
      var b := system[|system| - 1];
      Plus(SystemShows(system[..|system| - 1]), if b.TextBlock? then BlockShows(b) else Nothing)
  }

  /** What the speakers say; a message with role `tool` only answers calls. */
  function MessagesShow(messages: seq<Message>): Shown {
    if messages == [] then Nothing
    else
      var m := messages[|messages| - 1];
      Plus(MessagesShow(messages[..|messages| - 1]), if m.role == "tool" then Nothing else BlocksShow(m.content))
  }

  function ResultsIn(blocks: seq<ContentBlock>): seq<ToolResult> {
    if blocks == [] then []
    else
      var b := blocks[|blocks| - 1];
      ResultsIn(blocks[..|blocks| - 1]) + if b.ToolResultBlock? && b.result.Some? then [b.result.value] else []
  }

  function AllResults(messages: seq<Message>): seq<ToolResult> {
    if messages == [] then [] else AllResults(messages[..|messages| - 1]) + ResultsIn(messages[|messages| - 1].content)
  }

  // ----- on the wire -----

  function PartShows(p: Part): Shown {
    match p
    case TextPart(text) => Shown(text, [])
    case ImagePart(url) => if url.Some? then Shown("", [url.value]) else Nothing
    case OtherPart => Nothing
  }

  function PartsShow(parts: seq<Part>): Shown {
    if parts == [] then Nothing else Plus(PartsShow(parts[..|parts| - 1]), PartShows(parts[|parts| - 1]))
  }

  function ContentShows(c: WireContent): Shown {
    match c
    case Str(text) => Shown(text, [])
    case Parts(parts) => PartsShow(parts)
    case _ => Nothing
  }

  function Spoken(w: WireMsg): Shown {
    if w.role == "tool" then Nothing else ContentShows(w.content)
  }

  function Speech(ws: seq<WireMsg>): Shown {
    if ws == [] then Nothing else Plus(Speech(ws[..|ws| - 1]), Spoken(ws[|ws| - 1]))
  }

  function Answers(ws: seq<WireMsg>): seq<WireMsg> {
    if ws == [] then [] else Answers(ws[..|ws| - 1]) + if ws[|ws| - 1].role == "tool" then [ws[|ws| - 1]] else []
  }

  /** How an error is marked: a leading text is prefixed, anything else follows the bare mark. */
  function Mark(parts: seq<Part>): string {
    if parts != [] && parts[0].TextPart? then "Error: " else "Error:"
  }

  /** The tool message answers the call the result names, with its content after the error mark, if any. */
  ghost predicate Reports(w: WireMsg, r: ToolResult) {
    var wire, own := ContentShows(w.content), BlocksShow(r.content);
    && w.toolCallID == r.toolCallID
    && wire.images == own.images
    && wire.text == (if r.isError then Mark(PartsOf(r.content)) else "") + own.text
  }

  ghost predicate AllReport(ws: seq<WireMsg>, rs: seq<ToolResult>) {
    |ws| == |rs| && forall i :: 0 <= i < |rs| ==> Reports(ws[i], rs[i])
  }

  lemma ReportsJoin(ws: seq<WireMsg>, rs: seq<ToolResult>, ws': seq<WireMsg>, rs': seq<ToolResult>)
    requires AllReport(ws, rs) && AllReport(ws', rs')
    ensures AllReport(ws + ws', rs + rs')
  {
  }

  // ----- parts -----

  lemma OnePartShows(p: Part)
    ensures PartsShow([p]) == PartShows(p)
  {
    assert [p][..0] == [];
    PlusNothing(PartShows(p));
  }

  lemma PartsSnoc(parts: seq<Part>, p: Part)
    ensures PartsShow(parts + [p]) == Plus(PartsShow(parts), PartShows(p))
  {
    assert (parts + [p])[..|parts|] == parts;
  }

  lemma {:induction false} PartsCons(p: Part, parts: seq<Part>)
    ensures PartsShow([p] + parts) == Plus(PartShows(p), PartsShow(parts))
  {
    if parts == [] {
      OnePartShows(p);
      Unit([p]);
      PlusNothing(PartShows(p));
    } else {
      var n := |parts| - 1;
      PartsCons(p, parts[..n]);
      LastOf(parts);
      Associate([p], parts[..n], [parts[n]]);
      PartsSnoc([p] + parts[..n], parts[n]);
      PlusAssociates(PartShows(p), PartsShow(parts[..n]), PartShows(parts[n]));
    }
  }

  lemma BlockSent(b: ContentBlock)
    ensures |PartOf(b)| <= 1
    ensures PartOf(b) == [] ==> BlockShows(b) == Nothing
    ensures PartOf(b) != [] ==> PartShows(PartOf(b)[0]) == BlockShows(b)
  {
    hide FormatDataURI;
  }

  lemma PartShown(parts: seq<Part>, b: ContentBlock)
    ensures PartsShow(parts + PartOf(b)) == Plus(PartsShow(parts), BlockShows(b))
  {
    BlockSent(b);
    hide PartsShow, PartOf, BlockShows, PartShows, Plus;
    if PartOf(b) == [] {
      Unit(parts);
      PlusNothing(PartsShow(parts));
    } else {
      assert PartOf(b) == [PartOf(b)[0]];
      PartsSnoc(parts, PartOf(b)[0]);
    }
  }

  lemma {:induction false} SendableShows(blocks: seq<ContentBlock>)
    ensures PartsShow(PartsOf(blocks)) == BlocksShow(blocks)
  {
    if blocks != [] {
      var n := |blocks| - 1;
      SendableShows(blocks[..n]);
      PartShown(PartsOf(blocks[..n]), blocks[n]);
      hide PartsShow, PartOf, BlockShows, Plus;
    }
  }

  lemma ShapeShows(parts: seq<Part>)
    ensures ContentShows(Shape(parts)) == PartsShow(parts)
  {
    if |parts| == 1 {
      OnePartShows(parts[0]);
      assert parts == [parts[0]];
    }
  }

  lemma MarkShows(parts: seq<Part>)
    ensures PartsShow(MarkError(parts)) == Plus(Shown(Mark(parts), []), PartsShow(parts))
  {
    if parts != [] && parts[0].TextPart? {
      var rest := parts[1..];
      var first := TextPart("Error: " + parts[0].text);
      assert parts == [parts[0]] + rest && MarkError(parts) == [first] + rest;
      PartsCons(parts[0], rest);
      PartsCons(first, rest);
      hide PartsShow;
      Associate("Error: ", parts[0].text, PartsShow(rest).text);
    } else {
      PartsCons(TextPart("Error:"), parts);
      hide PartsShow;
      Unit(PartsShow(parts).images);
    }
  }

  lemma ResultReports(r: ToolResult)
    ensures Reports(Plain("tool", ResultContent(r), [], r.toolCallID), r)
  {
    var parts := PartsOf(r.content);
    SendableShows(r.content);
    MarkShows(parts);
    ShapeShows(if r.isError then MarkError(parts) else parts);
    Unit(PartsShow(parts).text);
    Unit(PartsShow(parts).images);
    hide Mark, PartsShow, Shape, MarkError, PartsOf, BlocksShow;
  }

  // ----- messages -----

  lemma SpeechSnoc(ws: seq<WireMsg>, w: WireMsg)
    ensures Speech(ws + [w]) == Plus(Speech(ws), Spoken(w))
    ensures Answers(ws + [w]) == Answers(ws) + if w.role == "tool" then [w] else []
  {
    assert (ws + [w])[..|ws|] == ws;
  }

  lemma {:induction false} SpeechAppend(a: seq<WireMsg>, b: seq<WireMsg>)
    ensures Speech(a + b) == Plus(Speech(a), Speech(b))
    ensures Answers(a + b) == Answers(a) + Answers(b)
  {
    if b == [] {
      Unit(a);
      Unit(Answers(a));
      PlusNothing(Speech(a));
    } else {
      var n := |b| - 1;
      var w := b[n];
      SpeechAppend(a, b[..n]);
      LastOf(b);
      Associate(a, b[..n], [w]);
      SpeechSnoc(a + b[..n], w);
      PlusAssociates(Speech(a), Speech(b[..n]), Spoken(w));
      Associate(Answers(a), Answers(b[..n]), if w.role == "tool" then [w] else []);
      hide Speech, Answers, Plus, Spoken;
      SpeechSnoc(b[..n], w);
    }
  }

  lemma OneSpeech(w: WireMsg)
    ensures Speech([w]) == Spoken(w)
    ensures Answers([w]) == if w.role == "tool" then [w] else []
  {
    assert [w][..0] == [];
    PlusNothing(Spoken(w));
  }

  lemma OneReports(r: ToolResult)
    ensures AllReport([Plain("tool", ResultContent(r), [], r.toolCallID)], [r])
  {
    ResultReports(r);
    hide Reports;
  }

  lemma {:induction false} ResultsAnswer(blocks: seq<ContentBlock>)
    ensures Speech(ResultsOf(blocks)) == Nothing
    ensures AllReport(Answers(ResultsOf(blocks)), ResultsIn(blocks))
  {
    if blocks != [] {
      var n := |blocks| - 1;
      var b, before := blocks[n], ResultsOf(blocks[..n]);
      ResultsAnswer(blocks[..n]);
      PlusNothing(Nothing);
      hide AllReport, Speech, Answers, ResultContent;
      if b.ToolResultBlock? && b.result.Some? {
        var r := b.result.value;
        OneReports(r);
        SpeechSnoc(before, Plain("tool", ResultContent(r), [], r.toolCallID));
        ReportsJoin(Answers(before), ResultsIn(blocks[..n]), [Plain("tool", ResultContent(r), [], r.toolCallID)], [r]);
      } else {
        Unit(before);
        Unit(ResultsIn(blocks[..n]));
      }
    }
  }

  /** A spoken message before or after tool messages adds what it shows and answers nothing. */
  lemma Around(results: seq<WireMsg>, msg: WireMsg)
    requires Speech(results) == Nothing && msg.role != "tool"
    ensures Speech(results + [msg]) == ContentShows(msg.content) == Speech([msg] + results)
    ensures Answers(results + [msg]) == Answers(results) == Answers([msg] + results)
  {
    OneSpeech(msg);
    SpeechAppend(results, [msg]);
    SpeechAppend([msg], results);
    PlusNothing(ContentShows(msg.content));
    Unit(Answers(results));
    hide Speech, Answers, Plus;
  }

  lemma MessageSays(m: Message)
    ensures Speech(EncodeMessage(m)) == if m.role == "tool" then Nothing else BlocksShow(m.content)
    ensures AllReport(Answers(EncodeMessage(m)), ResultsIn(m.content))
  {
    var parts, results := PartsOf(m.content), ResultsOf(m.content);
    var msg := Plain(m.role, Shape(parts), CallsOf(m.content), "");
    ResultsAnswer(m.content);
    SendableShows(m.content);
    ShapeShows(parts);
    assert PartsShow([]) == Nothing;
    hide Speech, Answers, AllReport, PartsShow, BlocksShow, ResultsIn, Shape, PartsOf, CallsOf, ResultsOf, Plus,
      ContentShows;
    if m.role != "tool" {
      Around(results, msg);
      Unit(results);
    }
  }

  lemma {:induction false} DialogueSays(messages: seq<Message>)
    ensures Speech(EncodeMessages(messages)) == MessagesShow(messages)
    ensures AllReport(Answers(EncodeMessages(messages)), AllResults(messages))
  {
    if messages != [] {
      var n := |messages| - 1;
      var m := messages[n];
      var before := EncodeMessages(messages[..n]);
      DialogueSays(messages[..n]);
      MessageSays(m);
      SpeechAppend(before, EncodeMessage(m));
      ReportsJoin(Answers(before), AllResults(messages[..n]), Answers(EncodeMessage(m)), ResultsIn(m.content));
      hide AllReport, Speech, Answers, EncodeMessage, ResultsIn, BlocksShow, Plus;
    }
  }

  lemma {:induction false} SystemSays(system: seq<ContentBlock>)
    ensures Speech(EncodeSystem(system)) == SystemShows(system)
    ensures Answers(EncodeSystem(system)) == []
  {
    if system != [] {
      var n := |system| - 1;
      var b := system[n];
      SystemSays(system[..n]);
      if b.TextBlock? && b.text.Some? {
        SpeechSnoc(EncodeSystem(system[..n]), Plain("system", Str(b.text.value), [], ""));
      } else {
        Unit(EncodeSystem(system[..n]));
        PlusNothing(SystemShows(system[..n]));
      }
    }
  }

  lemma ReRoleSays(ws: seq<WireMsg>)
    ensures Speech(ReRole(ws)) == Speech(ws) && Answers(ReRole(ws)) == Answers(ws)
  {
    if ws != [] {
      var n := |ws| - 1;
      var w := ws[n];
      LastOf(ws);
      if w.role == "assistant" && w.toolCalls == [] {
        assert ReRole(ws) == ws[..n] + [w.(role := "user")];
        SpeechSnoc(ws[..n], w.(role := "user"));
      }
    }
  }

  /**
    In every encoded request the system text and what the speakers say arrive in
    order and complete, whatever is re-roled, split off or left out; and the tool
    messages are the tool results one for one, in order, each with its own content.
   */
  lemma ContentIsConserved(req: ChatRequest)
    ensures Speech(WireMessages(req)) == Plus(SystemShows(req.system), MessagesShow(req.messages))
    ensures AllReport(Answers(WireMessages(req)), AllResults(req.messages))
  {
    var system, dialogue := EncodeSystem(req.system), EncodeMessages(req.messages);
    SystemSays(req.system);
    DialogueSays(req.messages);
    SpeechAppend(system, dialogue);
    ReRoleSays(system + dialogue);
    Unit(Answers(dialogue));
    hide Speech, Answers, AllReport, AllResults, ReRole, EncodeSystem, EncodeMessages, Plus, SystemShows, MessagesShow;
  }

  // ----- what is lost -----

  /** What a message says: one with role `tool` speaks through its results, if it has any. */
  function Says(m: Message): Shown {
    if m.role == "tool" && ResultsIn(m.content) != [] then Nothing else BlocksShow(m.content)
  }

  function AllSay(messages: seq<Message>): Shown {
    if messages == [] then Nothing else Plus(AllSay(messages[..|messages| - 1]), Says(messages[|messages| - 1]))
  }

  /** Images of a system prompt. */
  predicate TextOnly(system: seq<ContentBlock>) {
    forall b :: b in system && !b.TextBlock? ==> BlockShows(b) == Nothing
  }

  /** A tool message without a result, as one without a call id is decoded, says nothing. */
  predicate NoOrphans(messages: seq<Message>) {
    forall m :: m in messages && m.role == "tool" && ResultsIn(m.content) == [] ==> BlocksShow(m.content) == Nothing
  }

  predicate NoMore(a: Shown, b: Shown) {
    |a.text| <= |b.text| && |a.images| <= |b.images|
  }

  lemma SumsAgree(a: Shown, b: Shown, x: Shown, y: Shown)
    requires NoMore(a, b) && NoMore(x, y)
    ensures NoMore(Plus(a, x), Plus(b, y))
    ensures Plus(a, x) == Plus(b, y) <==> a == b && x == y
  {
    if Plus(a, x) == Plus(b, y) {
      assert |a.text| == |b.text| && |a.images| == |b.images|;
      assert (a.text + x.text)[..|a.text|] == a.text && (b.text + y.text)[..|b.text|] == b.text;
      assert (a.text + x.text)[|a.text|..] == x.text && (b.text + y.text)[|b.text|..] == y.text;
      assert (a.images + x.images)[..|a.images|] == a.images && (b.images + y.images)[..|b.images|] == b.images;
      assert (a.images + x.images)[|a.images|..] == x.images && (b.images + y.images)[|b.images|..] == y.images;
    }
  }

  lemma {:induction false} SystemKeeps(system: seq<ContentBlock>)
    ensures NoMore(SystemShows(system), BlocksShow(system))
    ensures SystemShows(system) == BlocksShow(system) <==> TextOnly(system)
  {
    if system != [] {
      var n := |system| - 1;
      var b := system[n];
      SystemKeeps(system[..n]);
      SumsAgree(SystemShows(system[..n]), BlocksShow(system[..n]),
                if b.TextBlock? then BlockShows(b) else Nothing, BlockShows(b));
      LastOf(system);
      assert TextOnly(system) <==> TextOnly(system[..n]) && (b.TextBlock? || BlockShows(b) == Nothing);
      hide BlockShows, Plus;
    }
  }

  lemma {:induction false} MessagesKeep(messages: seq<Message>)
    ensures NoMore(MessagesShow(messages), AllSay(messages))
    ensures MessagesShow(messages) == AllSay(messages) <==> NoOrphans(messages)
  {
    if messages != [] {
      var n := |messages| - 1;
      var m := messages[n];
      MessagesKeep(messages[..n]);
      SumsAgree(MessagesShow(messages[..n]), AllSay(messages[..n]),
                if m.role == "tool" then Nothing else BlocksShow(m.content), Says(m));
      LastOf(messages);
      var orphan := m.role == "tool" && ResultsIn(m.content) == [];
      assert NoOrphans(messages) <==> NoOrphans(messages[..n]) && (orphan ==> BlocksShow(m.content) == Nothing);
      hide BlocksShow, ResultsIn, Plus;
    }
  }

  /**
    All that the system prompt and the messages say arrives if and only if the prompt
    shows no image and no tool message without a result says anything.
   */
  lemma NothingIsLost(req: ChatRequest)
    ensures Speech(WireMessages(req)) == Plus(BlocksShow(req.system), AllSay(req.messages)) <==>
            TextOnly(req.system) && NoOrphans(req.messages)
  {
    ContentIsConserved(req);
    SystemKeeps(req.system);
    MessagesKeep(req.messages);
    SumsAgree(SystemShows(req.system), BlocksShow(req.system), MessagesShow(req.messages), AllSay(req.messages));
    hide *;
  }
}
