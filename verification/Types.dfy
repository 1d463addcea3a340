/**
  The canonical streaming types of codec/types.go. A Go event is a flat struct
  tagged by a string; here the tag is the constructor. Nil pointers are `None`.
 */
module Types {
  import opened Wrappers

  datatype Usage = Usage(
    input: Option<int>, output: Option<int>, total: Option<int>,
    reasoning: Option<int>, cacheRead: Option<int>, cacheWrite: Option<int>)

  datatype WebSearchResult = WebSearchResult(url: string, title: string)

  datatype EventBody =
    | TextDelta(text: string)
    | ThinkingDelta(thinking: string)
    | ThinkingSignature(signature: string)
    | ToolCallStart(index: int, callId: string, name: string)
    | ToolCallDelta(index: int, arguments: string)
    | ToolCallEnd
    | WebSearch(toolUseId: string, results: seq<WebSearchResult>)
    | MessageStop(stopReason: string)
    | UsageFinal(usage: Option<Usage>)

  datatype StreamEvent = StreamEvent(responseID: string, model: string, body: EventBody)

  function NormalizeStreamEvent(ev: StreamEvent, responseID: string, model: string): StreamEvent {
    ev.(responseID := if responseID != "" then responseID else ev.responseID,
        model := if model != "" then model else ev.model)
  }

  function NormalizeAll(events: seq<StreamEvent>, responseID: string, model: string): seq<StreamEvent> {
    seq(|events|, i requires 0 <= i < |events| => NormalizeStreamEvent(events[i], responseID, model))
  }

  /** Whom a stream is relayed to; `toolUseId` names the search blocks of an Anthropic client. */
  datatype Client = Client(model: string, responseID: string, hasWebSearch: bool, toolUseId: string)

  function Named(ev: StreamEvent, c: Client): StreamEvent {
    NormalizeStreamEvent(ev, c.responseID, c.model)
  }

  function NamedAll(events: seq<StreamEvent>, c: Client): seq<StreamEvent> {
    NormalizeAll(events, c.responseID, c.model)
  }

  lemma NamedAppend(a: seq<StreamEvent>, b: seq<StreamEvent>, c: Client)
    ensures NamedAll(a + b, c) == NamedAll(a, c) + NamedAll(b, c)
  {
  }

  /** Whether the event names its message, which is what `message_start` waits for. */
  predicate Identified(ev: StreamEvent) {
    ev.responseID != "" || ev.model != ""
  }
}
