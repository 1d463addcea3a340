/**
  The canonical request of codec/types.go and the OpenAI chat request it is encoded
  to (codec/upstream.go). The wire form stands for its JSON text; tool arguments are
  JSON values that print and parse back unchanged.
 */
module Request {
  import opened Wrappers
  import opened Distinct
  import opened JsonValues
  import opened Parameters

  // ----- the canonical request -----

  datatype Image = Image(mediaType: string, data: string)

  datatype ToolCall = ToolCall(id: string, name: string, arguments: Json)

  datatype ToolResult = ToolResult(toolCallID: string, content: seq<ContentBlock>, isError: bool)

  /** A block's payload pointer may be nil. */
  datatype ContentBlock =
    | TextBlock(text: Option<string>)
    | ImageBlock(image: Option<Image>)
    | ToolCallBlock(call: Option<ToolCall>)
    | ToolResultBlock(result: Option<ToolResult>)
    | ThinkingBlock(thinking: Option<string>, signature: Option<string>)
    | OtherBlock

  datatype Message = Message(role: string, content: seq<ContentBlock>)

  /** `kind` is "" for a function and "web_search" for the built-in tool. */
  datatype Tool = Tool(kind: string, name: string, description: string, schema: Json)

  datatype ChatRequest = ChatRequest(
    clientModel: string, stream: bool, system: seq<ContentBlock>, messages: seq<Message>, tools: seq<Tool>,
    toolChoice: Option<ToolChoice>, params: ParamsValue)

  // ----- the wire form -----

  datatype Part = TextPart(text: string) | ImagePart(url: Option<string>) | OtherPart

  /** A message's `content`: missing or null, a string, a list of parts, or something unreadable. */
  datatype WireContent = Absent | Str(text: string) | Parts(parts: seq<Part>) | Unreadable

  /** The `arguments` string: empty, the printed form of a value, or not JSON. */
  datatype ArgumentText = NoText | Printed(value: Json) | Garbled

  datatype WireCall = WireCall(id: string, name: string, arguments: ArgumentText)

  datatype WireThinking = WireThinking(kind: string, thinking: Option<string>, signature: Option<string>)

  datatype WireMsg = WireMsg(
    role: string, content: WireContent, toolCalls: seq<WireCall>, toolCallID: string,
    reasoning: Option<string>, thinkingBlocks: seq<WireThinking>)

  datatype WireTool = WireTool(kind: string, name: string, description: string, parameters: Json)

  datatype WireRequest = WireRequest(settings: WireSettings, messages: seq<WireMsg>, tools: seq<WireTool>,
      webSearch: bool)

  // ----- data URIs -----

  const Marker := "base64,"

  function FormatDataURI(img: Image): string {
    "data:" + (img.mediaType + (";" + (Marker + img.data)))
  }

  function Find(s: string, c: char): (i: nat)
    ensures i <= |s|
    ensures forall k :: 0 <= k < i ==> s[k] != c
    ensures i < |s| ==> s[i] == c
  {
    if s == [] || s[0] == c then 0 else 1 + Find(s[1..], c)
  }

  function ParseDataURI(url: string): Option<Image> {
    if !("data:" <= url) then None
    else
      var rest := url[5..];
      var semicolon := Find(rest, ';');
      if semicolon == |rest| then None
      else
        var after := rest[semicolon + 1..];
        if !(Marker <= after) then None else Some(Image(rest[..semicolon], after[7..]))
  }

  /** What the parser makes of the media type: up to its first ';'. */
  predicate Parseable(mediaType: string) {
    var i := Find(mediaType, ';');
    i < |mediaType| ==> Marker <= mediaType[i + 1..]
  }

  lemma FindUnique(s: string, c: char, i: nat)
    requires i < |s| && s[i] == c && forall k :: 0 <= k < i ==> s[k] != c
    ensures Find(s, c) == i
  {
  }

  lemma PrefixCut(prefix: string, s: string)
    ensures prefix <= s ==> s == prefix + s[|prefix|..]
    ensures prefix <= prefix + s && (prefix + s)[|prefix|..] == s
  {
  }

  lemma CutAt(s: string, i: nat)
    requires i < |s|
    ensures s == s[..i] + ([s[i]] + s[i + 1..])
  {
  }

  /** Formatting what was parsed gives back the string, whatever the string. */
  lemma ParsedFormatsBack(url: string)
    requires ParseDataURI(url).Some?
    ensures FormatDataURI(ParseDataURI(url).value) == url
    ensures ';' !in ParseDataURI(url).value.mediaType
  {
    var rest := url[5..];
    var i := Find(rest, ';');
    hide Find;
    PrefixCut("data:", url);
    CutAt(rest, i);
    PrefixCut(Marker, rest[i + 1..]);
  }

  lemma CutFront(front: string, back: string, k: nat)
    requires k <= |front|
    ensures (front + back)[..k] == front[..k] && (front + back)[k..] == front[k..] + back
  {
  }

  lemma FindInFront(mt: string, more: string)
    ensures Find(mt + (";" + more), ';') == Find(mt, ';')
  {
    var rest, i := mt + (";" + more), Find(mt, ';');
    assert rest[|mt|] == ';';
    assert forall k :: 0 <= k < |mt| ==> rest[k] == mt[k];
    FindUnique(rest, ';', i);
  }

  lemma CutBehind(front: string, more: string, i: nat)
    requires i <= |front|
    ensures (front + (";" + more))[i + 1..] == if i == |front| then more else front[i + 1..] + (";" + more)
  {
    if i < |front| {
      CutFront(front, ";" + more, i + 1);
    }
  }

  /** What follows the ';' the parser stops at in `mt;more`. */
  lemma AfterSemicolon(mt: string, more: string)
    ensures var rest, i := mt + (";" + more), Find(mt, ';');
            && Find(rest, ';') == i
            && rest[..i] == mt[..i]
            && rest[i + 1..] == if i == |mt| then more else mt[i + 1..] + (";" + more)
  {
    hide Find;
    FindInFront(mt, more);
    CutFront(mt, ";" + more, Find(mt, ';'));
    CutBehind(mt, more, Find(mt, ';'));
  }

  lemma MarkerFirst(tail: string, more: string)
    ensures Marker <= tail + (";" + more) <==> Marker <= tail
  {
    var after := tail + (";" + more);
    if |tail| >= 7 {
      assert after[..7] == tail[..7];
    } else {
      assert after[|tail|] == ';' && Marker[|tail|] != ';';
    }
  }

  /** What the parser does with a formatted image. */
  lemma FormattedRead(img: Image)
    ensures var rest := img.mediaType + (";" + (Marker + img.data));
            var i := Find(rest, ';');
            ParseDataURI(FormatDataURI(img)) ==
            if i < |rest| && Marker <= rest[i + 1..] then Some(Image(rest[..i], rest[i + 1..][7..])) else None
  {
    hide Find;
    PrefixCut("data:", img.mediaType + (";" + (Marker + img.data)));
  }

  /** A formatted image parses at all exactly when its media type is parseable, and then keeps its data. */
  lemma FormattedParses(img: Image)
    ensures ParseDataURI(FormatDataURI(img)).Some? <==> Parseable(img.mediaType)
    ensures ParseDataURI(FormatDataURI(img)) == Some(img) <==> ';' !in img.mediaType
    ensures Parseable(img.mediaType) && img.data != "" ==> ParseDataURI(FormatDataURI(img)).value.data != ""
  {
    var mt, more := img.mediaType, Marker + img.data;
    var i := Find(mt, ';');
    FormattedRead(img);
    AfterSemicolon(mt, more);
    hide Find, FormatDataURI, ParseDataURI;
    if i == |mt| {
      assert more[7..] == img.data && mt[..i] == mt;
    } else {
      MarkerFirst(mt[i + 1..], more);
      assert mt[i] in mt && |mt[..i]| < |mt|;
    }
  }

  // ----- encoding -----

  function PartOf(b: ContentBlock): seq<Part> {
    if b.TextBlock? && b.text.Some? then [TextPart(b.text.value)]
    else if b.ImageBlock? && b.image.Some? && b.image.value.data != ""
    then [ImagePart(Some(FormatDataURI(b.image.value)))]
    else []
  }

  function PartsOf(blocks: seq<ContentBlock>): seq<Part> {
    if blocks == [] then [] else PartsOf(blocks[..|blocks| - 1]) + PartOf(blocks[|blocks| - 1])
  }

  function CallOf(b: ContentBlock): seq<WireCall> {
    if b.ToolCallBlock? && b.call.Some?
    then [WireCall(b.call.value.id, b.call.value.name, Printed(b.call.value.arguments))] else []
  }

  function CallsOf(blocks: seq<ContentBlock>): seq<WireCall> {
    if blocks == [] then [] else CallsOf(blocks[..|blocks| - 1]) + CallOf(blocks[|blocks| - 1])
  }

  function MarkError(parts: seq<Part>): seq<Part> {
    if parts != [] && parts[0].TextPart? then parts[0 := TextPart("Error: " + parts[0].text)]
    else [TextPart("Error:")] + parts
  }

  /** A lone text part is sent as a string, nothing at all as the empty string. */
  function Shape(parts: seq<Part>): WireContent {
    if parts == [] then Str("")
    else if |parts| == 1 && parts[0].TextPart? then Str(parts[0].text)
    else Parts(parts)
  }

  function ResultContent(result: ToolResult): WireContent {
    Shape(if result.isError then MarkError(PartsOf(result.content)) else PartsOf(result.content))
  }

  function Plain(role: string, content: WireContent, calls: seq<WireCall>, toolCallID: string): WireMsg {
    WireMsg(role, content, calls, toolCallID, None, [])
  }

  function ResultOf(b: ContentBlock): seq<WireMsg> {
    if b.ToolResultBlock? && b.result.Some?
    then [Plain("tool", ResultContent(b.result.value), [], b.result.value.toolCallID)] else []
  }

  function ResultsOf(blocks: seq<ContentBlock>): seq<WireMsg> {
    if blocks == [] then [] else ResultsOf(blocks[..|blocks| - 1]) + ResultOf(blocks[|blocks| - 1])
  }

  function EncodeMessage(m: Message): seq<WireMsg> {
    var parts, calls, results := PartsOf(m.content), CallsOf(m.content), ResultsOf(m.content);
    var msg := Plain(m.role, Shape(parts), calls, "");
    if m.role == "tool" then results
    else if parts == [] && calls == [] && results == [] then []
    else if results != [] && m.role == "user" then results + if parts == [] then [] else [msg]
    else [msg] + results
  }

  function EncodeMessages(messages: seq<Message>): seq<WireMsg> {
    if messages == [] then [] else EncodeMessages(messages[..|messages| - 1]) + EncodeMessage(messages[|messages| - 1])
  }

  function EncodeSystem(system: seq<ContentBlock>): seq<WireMsg> {
    if system == [] then []
    else
      var b := system[|system| - 1];
      EncodeSystem(system[..|system| - 1]) +
      if b.TextBlock? && b.text.Some? then [Plain("system", Str(b.text.value), [], "")] else []
  }

  /** A trailing assistant message without tool calls becomes a user message. */
  function ReRole(messages: seq<WireMsg>): seq<WireMsg> {
    var n := |messages|;
    if n > 0 && messages[n - 1].role == "assistant" && messages[n - 1].toolCalls == [] then
      messages[n - 1 := messages[n - 1].(role := "user")]
    else messages
  }

  function FunctionTools(tools: seq<Tool>): seq<WireTool> {
    if tools == [] then []
    else
      var t := tools[|tools| - 1];
      FunctionTools(tools[..|tools| - 1]) +
      if t.kind == "web_search" then [] else [WireTool("function", t.name, t.description, t.schema)]
  }

  predicate WantsSearch(tools: seq<Tool>) {
    tools != [] && (tools[|tools| - 1].kind == "web_search" || WantsSearch(tools[..|tools| - 1]))
  }

  /** The function names called in the history, in order, empty names aside. */
  function NamesIn(calls: seq<WireCall>): seq<string> {
    if calls == [] then []
    else NamesIn(calls[..|calls| - 1]) + if calls[|calls| - 1].name == "" then [] else [calls[|calls| - 1].name]
  }

  function HistoryNames(messages: seq<WireMsg>): seq<string> {
    if messages == [] then []
    else HistoryNames(messages[..|messages| - 1]) + NamesIn(messages[|messages| - 1].toolCalls)
  }

  const AnyObject := JObject([Member("type", JString("object")), Member("properties", JObject([]))])

  function InferredTool(name: string): WireTool {
    WireTool("function", name, "", AnyObject)
  }

  function InferTools(messages: seq<WireMsg>): seq<WireTool> {
    var names := FirstSeen(HistoryNames(messages));
    seq(|names|, i requires 0 <= i < |names| => InferredTool(names[i]))
  }

  function WireMessages(req: ChatRequest): seq<WireMsg> {
    ReRole(EncodeSystem(req.system) + EncodeMessages(req.messages))
  }

  function Encode(req: ChatRequest, to: Upstream): WireRequest {
    var messages, tools, search := WireMessages(req), FunctionTools(req.tools), WantsSearch(req.tools);
    WireRequest(EncodeSettings(req.toolChoice, req.params, to),
                messages, if tools == [] && !search then InferTools(messages) else tools, search)
  }

  // ----- decoding -----

  function BlockOf(p: Part): seq<ContentBlock> {
    match p
    case TextPart(text) => [TextBlock(Some(text))]
    case ImagePart(url) =>
      if url.Some? && url.value != "" && ParseDataURI(url.value).Some?
      then [ImageBlock(ParseDataURI(url.value))] else []
    case OtherPart => []
  }

  function BlocksOf(parts: seq<Part>): seq<ContentBlock> {
    if parts == [] then [] else BlocksOf(parts[..|parts| - 1]) + BlockOf(parts[|parts| - 1])
  }

  function DecodeContent(c: WireContent): Result<seq<ContentBlock>, string> {
    match c
    case Absent => Ok([])
    case Str(text) => Ok([TextBlock(Some(text))])
    case Parts(parts) => Ok(BlocksOf(parts))
    case Unreadable => Err("decode openai content")
  }

  function ThoughtOf(tb: WireThinking): seq<ContentBlock> {
    if tb.kind != "thinking" || tb.thinking.None? || tb.thinking.value == "" then []
    else [ThinkingBlock(tb.thinking, tb.signature)]
  }

  function ThoughtsOf(blocks: seq<WireThinking>): seq<ContentBlock> {
    if blocks == [] then [] else ThoughtsOf(blocks[..|blocks| - 1]) + ThoughtOf(blocks[|blocks| - 1])
  }

  function ThinkingOf(m: WireMsg): seq<ContentBlock> {
    if m.thinkingBlocks != [] then ThoughtsOf(m.thinkingBlocks)
    else if m.reasoning.Some? && m.reasoning.value != "" then [ThinkingBlock(m.reasoning, None)]
    else []
  }

  function ArgumentsOf(a: ArgumentText): Json {
    if a.Printed? then a.value else JNull
  }

  function CallBlocks(calls: seq<WireCall>): seq<ContentBlock> {
    if calls == [] then []
    else
      var c := calls[|calls| - 1];
      CallBlocks(calls[..|calls| - 1]) + [ToolCallBlock(Some(ToolCall(c.id, c.name, ArgumentsOf(c.arguments))))]
  }

  /** The blocks of one non-system message; empty means the message is dropped. */
  function DecodeBlocks(m: WireMsg): Result<seq<ContentBlock>, string> {
    match DecodeContent(m.content)
    case Err(e) => Err(e)
    case Ok(inner) =>
      Ok(ThinkingOf(m) + inner + CallBlocks(m.toolCalls) +
         if m.role == "tool" && m.toolCallID != ""
         then [ToolResultBlock(Some(ToolResult(m.toolCallID, inner, false)))] else [])
  }

  datatype Conversation = Conversation(system: seq<ContentBlock>, messages: seq<Message>)

  function DecodeOne(c: Conversation, m: WireMsg): Result<Conversation, string> {
    if m.role == "system" then
      match DecodeContent(m.content)
      case Err(e) => Err(e)
      case Ok(blocks) => Ok(c.(system := c.system + blocks))
    else
      match DecodeBlocks(m)
      case Err(e) => Err(e)
      case Ok(blocks) => Ok(if blocks == [] then c else c.(messages := c.messages + [Message(m.role, blocks)]))
  }

  function DecodeMessages(messages: seq<WireMsg>): Result<Conversation, string> {
    if messages == [] then Ok(Conversation([], []))
    else
      match DecodeMessages(messages[..|messages| - 1])
      case Err(e) => Err(e)
      case Ok(c) => DecodeOne(c, messages[|messages| - 1])
  }

  function DecodeTools(tools: seq<WireTool>): seq<Tool> {
    if tools == [] then []
    else
      var t := tools[|tools| - 1];
      DecodeTools(tools[..|tools| - 1]) +
          if t.kind == "function" then [Tool("", t.name, t.description, t.parameters)] else []
  }

  function Decode(w: WireRequest): Result<ChatRequest, string> {
    match DecodeSettings(w.settings)
    case Err(e) => Err(e)
    case Ok(s) =>
      match DecodeMessages(w.messages)
      case Err(e) => Err(e)
      case Ok(c) =>
        Ok(ChatRequest(s.model, s.stream, c.system, c.messages,
                       DecodeTools(w.tools) + if w.webSearch then [Tool("web_search", "", "", JNull)] else [],
                       s.choice, s.params))
  }

  // ----- the loops -----

  method EncodeOpenAIToolResultContent(result: ToolResult) returns (content: WireContent)
    ensures content == ResultContent(result)
  {
    var parts: seq<Part> := [];
    for i := 0 to |result.content|
      invariant parts == PartsOf(result.content[..i])
    {
      assert result.content[..i + 1][..i] == result.content[..i];
      match result.content[i] {
        case TextBlock(text) =>
          if text.Some? { parts := parts + [TextPart(text.value)]; }
        case ImageBlock(image) =>
          if image.Some? && image.value.data != "" { parts := parts + [ImagePart(Some(FormatDataURI(image.value)))]; }
        case _ =>
      }
    }
    assert result.content[..|result.content|] == result.content;
    if result.isError {
      if |parts| == 0 {
        return Str("Error:");
      }
      if parts[0].TextPart? {
        parts := parts[0 := TextPart("Error: " + parts[0].text)];
      } else {
        parts := [TextPart("Error:")] + parts;
      }
    }
    if |parts| == 0 {
      content := Str("");
    } else if |parts| == 1 && parts[0].TextPart? {
      content := Str(parts[0].text);
    } else {
      content := Parts(parts);
    }
  }

  method EncodeOpenAIMessage(m: Message) returns (msgs: seq<WireMsg>)
    ensures msgs == EncodeMessage(m)
  {
    hide PartsOf, CallsOf, ResultsOf;
    var contentParts, toolCalls, toolResults := EncodeBlocks(m.content);
    if m.role == "tool" {
      return toolResults;
    }
    if |contentParts| == 0 && |toolCalls| == 0 && |toolResults| == 0 {
      return [];
    }
    var msg := Plain(m.role, Str(""), toolCalls, "");
    if |contentParts| == 1 && contentParts[0].TextPart? {
      msg := msg.(content := Str(contentParts[0].text));
    } else if |contentParts| > 0 {
      msg := msg.(content := Parts(contentParts));
    }
    if |toolResults| > 0 && m.role == "user" {
      msgs := toolResults;
      if |contentParts| > 0 {
        msgs := msgs + [msg];
      }
      return;
    }
    msgs := [msg] + toolResults;
  }

  lemma OneBlockMore(blocks: seq<ContentBlock>, i: nat)
    requires i < |blocks|
    ensures PartsOf(blocks[..i + 1]) == PartsOf(blocks[..i]) + PartOf(blocks[i])
    ensures CallsOf(blocks[..i + 1]) == CallsOf(blocks[..i]) + CallOf(blocks[i])
    ensures ResultsOf(blocks[..i + 1]) == ResultsOf(blocks[..i]) + ResultOf(blocks[i])
  {
    assert blocks[..i + 1][..i] == blocks[..i];
    hide PartOf, CallOf, ResultOf;
  }

  method EncodeBlocks(blocks: seq<ContentBlock>)
    returns (contentParts: seq<Part>, toolCalls: seq<WireCall>, toolResults: seq<WireMsg>)
    ensures contentParts == PartsOf(blocks) && toolCalls == CallsOf(blocks) && toolResults == ResultsOf(blocks)
  {
    contentParts, toolCalls, toolResults := [], [], [];
    hide FormatDataURI, ResultContent;
    for i := 0 to |blocks|
      invariant contentParts == PartsOf(blocks[..i])
      invariant toolCalls == CallsOf(blocks[..i])
      invariant toolResults == ResultsOf(blocks[..i])
    {
      hide PartsOf, CallsOf, ResultsOf;
      OneBlockMore(blocks, i);
      match blocks[i] {
        case TextBlock(text) =>
          if text.Some? { contentParts := contentParts + [TextPart(text.value)]; }
        case ImageBlock(image) =>
          if image.Some? && image.value.data != "" {
            contentParts := contentParts + [ImagePart(Some(FormatDataURI(image.value)))];
          }
        case ToolCallBlock(call) =>
          if call.Some? {
            toolCalls := toolCalls + [WireCall(call.value.id, call.value.name, Printed(call.value.arguments))];
          }
        case ToolResultBlock(result) =>
          if result.Some? {
            var content := EncodeOpenAIToolResultContent(result.value);
            toolResults := toolResults + [Plain("tool", content, [], result.value.toolCallID)];
          }
        case _ =>
      }
    }
    assert blocks[..|blocks|] == blocks;
  }

  method InferToolsFromHistory(messages: seq<WireMsg>) returns (tools: seq<WireTool>)
    ensures tools == InferTools(messages)
  {
    var seen: set<string> := {};
    tools := [];
    for i := 0 to |messages|
      invariant Inferred(tools, seen, HistoryNames(messages[..i]))
    {
      assert messages[..i + 1][..i] == messages[..i];
      tools, seen := InferFromCalls(tools, seen, HistoryNames(messages[..i]), messages[i].toolCalls);
    }
    assert messages[..|messages|] == messages;
  }

  ghost predicate Inferred(tools: seq<WireTool>, seen: set<string>, names: seq<string>) {
    && (forall n :: n in seen <==> n in names)
    && |tools| == |FirstSeen(names)|
    && forall i :: 0 <= i < |tools| ==> tools[i] == InferredTool(FirstSeen(names)[i])
  }

  lemma NamesSnoc(names: seq<string>, calls: seq<WireCall>, j: nat)
    requires j < |calls|
    ensures names + NamesIn(calls[..j + 1]) ==
            names + NamesIn(calls[..j]) + if calls[j].name == "" then [] else [calls[j].name]
  {
    assert calls[..j + 1][..j] == calls[..j];
  }

  lemma InferredSnoc(tools: seq<WireTool>, seen: set<string>, names: seq<string>, name: string)
    requires Inferred(tools, seen, names)
    ensures name in seen ==> Inferred(tools, seen, names + [name])
    ensures name !in seen ==> Inferred(tools + [InferredTool(name)], seen + {name}, names + [name])
    ensures Inferred(tools, seen, names + [])
  {
    FirstSeenSnoc(names, name);
    assert names + [] == names;
  }

  method InferFromCalls(before: seq<WireTool>, seenBefore: set<string>, ghost names: seq<string>, calls: seq<WireCall>)
    returns (tools: seq<WireTool>, seen: set<string>)
    requires Inferred(before, seenBefore, names)
    ensures Inferred(tools, seen, names + NamesIn(calls))
  {
    tools, seen := before, seenBefore;
    assert names + NamesIn(calls[..0]) == names;
    for j := 0 to |calls|
      invariant Inferred(tools, seen, names + NamesIn(calls[..j]))
    {
      var name := calls[j].name;
      NamesSnoc(names, calls, j);
      InferredSnoc(tools, seen, names + NamesIn(calls[..j]), name);
      if !(name in seen || name == "") {
        seen := seen + {name};
        tools := tools + [InferredTool(name)];
      }
    }
    assert calls[..|calls|] == calls;
  }

  method EncodeOpenAIRequest(req: ChatRequest, to: Upstream) returns (out: WireRequest)
    ensures out == Encode(req, to)
  {
    hide EncodeSystem, EncodeMessages, FunctionTools, WantsSearch, InferTools, Effort;
    var settings := EncodeParameters(req, to);
    var encodedTools, hasWebSearch := EncodeTools(req.tools);
    var messages := EncodeHistory(req);
    var n := |messages|;
    if n > 0 && messages[n - 1].role == "assistant" && |messages[n - 1].toolCalls| == 0 {
      messages := messages[n - 1 := messages[n - 1].(role := "user")];
    }
    out := WireRequest(settings, messages, encodedTools, hasWebSearch);
    if |encodedTools| == 0 && !hasWebSearch {
      var inferred := InferToolsFromHistory(messages);
      out := out.(tools := inferred);
    }
  }

  method EncodeParameters(req: ChatRequest, to: Upstream) returns (out: WireSettings)
    ensures out == EncodeSettings(req.toolChoice, req.params, to)
  {
    hide Effort, EncodeChoice, EncodeFormat;
    var p := req.params;
    var choice := EncodeToolChoice(req.toolChoice);
    var format := EncodeResponseFormat(p.format);
    var effort := BuildOpenAIReasoning(p.reasoning, to);
    out := WireSettings(to.model, if to.stream then Some(true) else None, to.stream,
                        p.maxTokens, None, p.temperature, p.topP,
                        if |p.stop| == 0 then NoStop else StopList(p.stop), choice, format, effort);
  }

  method EncodeToolChoice(choice: Option<ToolChoice>) returns (out: WireChoice)
    ensures out == EncodeChoice(choice)
  {
    out := NoChoice;
    if choice.Some? {
      var tc := choice.value;
      match tc.kind {
        case "required" => out := Word("required");
        case "tool" =>
          if tc.name != "" { out := Object("function", tc.name); }
        case _ => out := Word("auto");
      }
    }
  }

  method EncodeResponseFormat(format: Option<FormatValue>) returns (out: Json)
    ensures out == EncodeFormat(format)
  {
    out := JNull;
    if format.Some? {
      var rf := format.value;
      match rf.kind {
        case "json_object" => out := JObject([Member("type", JString("json_object"))]);
        case "json_schema" =>
          if rf.schema != JNull {
            var jsonSchema := [Member("name", JString(if rf.name == "" then "structured_output" else rf.name)),
                               Member("schema", rf.schema)];
            if rf.strict.Some? {
              jsonSchema := jsonSchema + [Member("strict", JBool(rf.strict.value))];
            }
            assert JObject(jsonSchema) == SchemaObject(rf);
            out := JObject([Member("type", JString("json_schema")), Member("json_schema", JObject(jsonSchema))]);
          }
        case _ =>
      }
    }
  }

  method EncodeTools(tools: seq<Tool>) returns (encodedTools: seq<WireTool>, hasWebSearch: bool)
    ensures encodedTools == FunctionTools(tools) && hasWebSearch == WantsSearch(tools)
  {
    encodedTools, hasWebSearch := [], false;
    for i := 0 to |tools|
      invariant encodedTools == FunctionTools(tools[..i])
      invariant hasWebSearch == WantsSearch(tools[..i])
    {
      var t := tools[i];
      assert tools[..i + 1][..i] == tools[..i];
      if t.kind == "web_search" {
        hasWebSearch := true;
      } else {
        encodedTools := encodedTools + [WireTool("function", t.name, t.description, t.schema)];
      }
    }
    assert tools[..|tools|] == tools;
  }

  method EncodeHistory(req: ChatRequest) returns (messages: seq<WireMsg>)
    ensures messages == EncodeSystem(req.system) + EncodeMessages(req.messages)
  {
    messages := [];
    for i := 0 to |req.system|
      invariant messages == EncodeSystem(req.system[..i])
    {
      var sys := req.system[i];
      assert req.system[..i + 1][..i] == req.system[..i];
      if sys.TextBlock? && sys.text.Some? {
        messages := messages + [Plain("system", Str(sys.text.value), [], "")];
      }
    }
    assert req.system[..|req.system|] == req.system;
    var dialogue := EncodeDialogue(req.messages);
    messages := messages + dialogue;
  }

  method EncodeDialogue(messages: seq<Message>) returns (encoded: seq<WireMsg>)
    ensures encoded == EncodeMessages(messages)
  {
    encoded := [];
    for i := 0 to |messages|
      invariant encoded == EncodeMessages(messages[..i])
    {
      assert messages[..i + 1][..i] == messages[..i];
      var msg := EncodeOpenAIMessage(messages[i]);
      encoded := encoded + msg;
    }
    assert messages[..|messages|] == messages;
  }

  method DecodeOpenAIContent(c: WireContent) returns (r: Result<seq<ContentBlock>, string>)
    ensures r == DecodeContent(c)
  {
    match c {
      case Absent => return Ok([]);
      case Str(text) => return Ok([TextBlock(Some(text))]);
      case Unreadable => return Err("decode openai content");
      case Parts(parts) =>
        var result: seq<ContentBlock> := [];
        for i := 0 to |parts|
          invariant result == BlocksOf(parts[..i])
        {
          assert parts[..i + 1][..i] == parts[..i];
          match parts[i] {
            case TextPart(text) => result := result + [TextBlock(Some(text))];
            case ImagePart(url) =>
              if url.Some? && url.value != "" {
                var img := ParseDataURI(url.value);
                if img.Some? { result := result + [ImageBlock(img)]; }
              }
            case OtherPart =>
          }
        }
        assert parts[..|parts|] == parts;
        return Ok(result);
    }
  }

  method DecodeMessageBlocks(m: WireMsg) returns (r: Result<seq<ContentBlock>, string>)
    ensures r == DecodeBlocks(m)
  {
    var blocks: seq<ContentBlock> := [];
    if |m.thinkingBlocks| > 0 {
      for i := 0 to |m.thinkingBlocks|
        invariant blocks == ThoughtsOf(m.thinkingBlocks[..i])
      {
        var tb := m.thinkingBlocks[i];
        assert m.thinkingBlocks[..i + 1][..i] == m.thinkingBlocks[..i];
        if !(tb.kind != "thinking" || tb.thinking.None? || tb.thinking.value == "") {
          blocks := blocks + [ThinkingBlock(tb.thinking, tb.signature)];
        }
      }
      assert m.thinkingBlocks[..|m.thinkingBlocks|] == m.thinkingBlocks;
    } else if m.reasoning.Some? && m.reasoning.value != "" {
      blocks := [ThinkingBlock(m.reasoning, None)];
    }
    assert blocks == ThinkingOf(m);
    var content := DecodeOpenAIContent(m.content);
    if content.Err? {
      return Err(content.error);
    }
    blocks := blocks + content.value;
    ghost var head := blocks;
    for i := 0 to |m.toolCalls|
      invariant blocks == head + CallBlocks(m.toolCalls[..i])
    {
      var tc := m.toolCalls[i];
      assert m.toolCalls[..i + 1][..i] == m.toolCalls[..i];
      var args := JNull;
      if tc.arguments.Printed? {
        args := tc.arguments.value;
      }
      blocks := blocks + [ToolCallBlock(Some(ToolCall(tc.id, tc.name, args)))];
    }
    assert m.toolCalls[..|m.toolCalls|] == m.toolCalls;
    assert blocks == ThinkingOf(m) + content.value + CallBlocks(m.toolCalls);
    if m.role == "tool" && m.toolCallID != "" {
      blocks := blocks + [ToolResultBlock(Some(ToolResult(m.toolCallID, content.value, false)))];
    } else {
      assert blocks + [] == blocks;
    }
    r := Ok(blocks);
  }

  method DecodeOpenAIRequest(raw: WireRequest) returns (r: Result<ChatRequest, string>)
    ensures r == Decode(raw)
  {
    var settings := DecodeParameters(raw.settings);
    if settings.Err? {
      return Err(settings.error);
    }
    var tools: seq<Tool> := [];
    for i := 0 to |raw.tools|
      invariant tools == DecodeTools(raw.tools[..i])
    {
      var t := raw.tools[i];
      assert raw.tools[..i + 1][..i] == raw.tools[..i];
      if t.kind == "function" {
        tools := tools + [Tool("", t.name, t.description, t.parameters)];
      }
    }
    assert raw.tools[..|raw.tools|] == raw.tools;
    if raw.webSearch {
      tools := tools + [Tool("web_search", "", "", JNull)];
    } else {
      assert tools + [] == tools;
    }
    var conversation := DecodeHistory(raw.messages);
    if conversation.Err? {
      return Err(conversation.error);
    }
    var s := settings.value;
    r := Ok(ChatRequest(s.model, s.stream, conversation.value.system, conversation.value.messages, tools,
        s.choice, s.params));
  }

  method DecodeParameters(raw: WireSettings) returns (r: Result<Settings, string>)
    ensures r == DecodeSettings(raw)
  {
    if raw.model == "" {
      return Err("openai request: model is required");
    }
    var params := ParamsValue(raw.maxTokens, raw.temperature, raw.topP, [], None, None);
    if raw.maxTokens.None? {
      params := params.(maxTokens := raw.maxTokensLegacy);
    }
    match raw.stop {
      case NoStop =>
      case OneStop(text) => params := params.(stop := [text]);
      case StopList(texts) => params := params.(stop := texts);
      case BadStop => return Err("decode openai stop");
    }
    if raw.effort.Some? && raw.effort.value != "" {
      params := params.(reasoning := Some(ReasoningValue("", raw.effort)));
    }
    params := params.(format := DecodeFormat(raw.format));
    r := Ok(Settings(raw.model, raw.stream == Some(true), DecodeChoice(raw.choice), params));
  }

  method DecodeHistory(messages: seq<WireMsg>) returns (r: Result<Conversation, string>)
    ensures r == DecodeMessages(messages)
  {
    var c := Conversation([], []);
    for i := 0 to |messages|
      invariant DecodeMessages(messages[..i]) == Ok(c)
    {
      var m := messages[i];
      assert messages[..i + 1][..i] == messages[..i];
      if m.role == "system" {
        var sysBlocks := DecodeOpenAIContent(m.content);
        if sysBlocks.Err? {
          ErrorStays(messages, i + 1);
          return Err(sysBlocks.error);
        }
        c := c.(system := c.system + sysBlocks.value);
      } else {
        var blocks := DecodeMessageBlocks(m);
        if blocks.Err? {
          ErrorStays(messages, i + 1);
          return Err(blocks.error);
        }
        if |blocks.value| > 0 {
          c := c.(messages := c.messages + [Message(m.role, blocks.value)]);
        }
      }
    }
    assert messages[..|messages|] == messages;
    r := Ok(c);
  }

  /** The first message that does not decode decides the outcome. */
  lemma {:induction false} ErrorStays(messages: seq<WireMsg>, i: nat)
    requires i <= |messages| && DecodeMessages(messages[..i]).Err?
    ensures DecodeMessages(messages) == DecodeMessages(messages[..i])
  {
    if i < |messages| {
      var n := |messages| - 1;
      assert messages[..n][..i] == messages[..i];
      ErrorStays(messages[..n], i);
    } else {
      assert messages[..i] == messages;
    }
  }
}
