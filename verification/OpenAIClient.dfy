/**
  The reader the OpenAI stream is meant for: it concatenates content and reasoning and
  assembles tool calls by index. Whatever the events, it ends up with what the
  aggregator holds after the same events.
 */
module OpenAIClient {
  import opened Wrappers
  import opened Types
  import opened OpenAIStream
  import opened Aggregate

  datatype Reply = Reply(content: string, reasoning: string, calls: seq<Call>)

  const NoReply := Reply("", "", [])

  function OrEmpty(s: Option<string>): string {
    if s.Some? then s.value else ""
  }

  /** An entry with an id starts a call; bare arguments go to the latest call with the index. */
  function TakeCall(calls: seq<Call>, tc: StreamToolCall): seq<Call> {
    var i := LastWith(calls, tc.index);
    if tc.id != "" then calls + [Call(tc.index, tc.id, tc.name, tc.arguments)]
    else if i < 0 then calls
    else calls[i := calls[i].(arguments := calls[i].arguments + tc.arguments)]
  }

  function TakeCalls(calls: seq<Call>, entries: seq<StreamToolCall>): seq<Call> {
    if entries == [] then calls else TakeCall(TakeCalls(calls, entries[..|entries| - 1]), entries[|entries| - 1])
  }

  function Take(r: Reply, c: Chunk): Reply {
    if c.choices == [] then r
    else
      var d := c.choices[0].delta;
      Reply(r.content + OrEmpty(d.content), r.reasoning + OrEmpty(d.reasoningContent), TakeCalls(r.calls, d.toolCalls))
  }

  function ReplyTo(chunks: seq<Chunk>): Reply {
    if chunks == [] then NoReply else Take(ReplyTo(chunks[..|chunks| - 1]), chunks[|chunks| - 1])
  }

  // ----- what one event adds -----

  /** What an aggregate holds of a reply. */
  function ReplyOf(a: Agg): Reply {
    Reply(Join(a.textParts), Join(a.thinkingParts), a.toolCalls)
  }

  function Listen(r: Reply, body: EventBody): Reply {
    match body
    case TextDelta(text) => r.(content := r.content + text)
    case ThinkingDelta(text) => r.(reasoning := r.reasoning + text)
    case ToolCallStart(index, id, name) => r.(calls := r.calls + [Call(index, id, name, "")])
    case ToolCallDelta(index, arguments) => r.(calls := TakeCall(r.calls, StreamToolCall(index, "", "", arguments)))
    case _ => r
  }

  lemma ApplyListens(a: Agg, ev: StreamEvent)
    ensures ReplyOf(Apply(a, ev)) == Listen(ReplyOf(a), ev.body)
  {
    match ev.body {
      case TextDelta(text) =>
        JoinSnoc(a.textParts, text);
        hide Join;
        Unit(Join(a.textParts));
      case ThinkingDelta(text) =>
        JoinSnoc(a.thinkingParts, text);
        hide Join;
      case _ =>
        hide Join;
    }
  }

  lemma TakeSent(e: OEnc, delta: StreamDelta, finish: Option<string>)
    ensures var r := ReplyTo(e.out);
            ReplyTo(Send(e, delta, finish).out) ==
            Reply(r.content + OrEmpty(delta.content), r.reasoning + OrEmpty(delta.reasoningContent),
                TakeCalls(r.calls, delta.toolCalls))
  {
    var c := Chunk(e.responseID, e.model, [Choice(delta, finish)], None);
    assert (e.out + [c])[..|e.out|] == e.out;
  }

  lemma TakeOne(calls: seq<Call>, tc: StreamToolCall)
    ensures TakeCalls(calls, [tc]) == TakeCall(calls, tc) && TakeCalls(calls, []) == calls
  {
    assert [tc][..0] == [];
  }

  lemma Unchanged(r: Reply)
    ensures Reply(r.content + "", r.reasoning + "", TakeCalls(r.calls, [])) == r
  {
  }

  /** A started call has an id, as every call the decoder starts does. */
  predicate Identifiable(body: EventBody) {
    body.ToolCallStart? ==> body.callId != ""
  }

  lemma TextSent(e: OEnc, body: EventBody)
    requires body.TextDelta? || body.ThinkingDelta?
    ensures ReplyTo(OBody(e, body).out) == Listen(ReplyTo(e.out), body)
  {
    var r, delta := ReplyTo(e.out), NoDelta.(role := Role(e));
    Unchanged(r);
    hide ReplyTo, TakeCalls;
    match body {
      case TextDelta(text) => TakeSent(e, delta.(content := Some(text)), None);
      case ThinkingDelta(text) => TakeSent(e, delta.(reasoningContent := Some(text)), None);
    }
  }

  lemma StartSent(e: OEnc, index: int, id: string, name: string)
    requires id != ""
    ensures ReplyTo(OBody(e, ToolCallStart(index, id, name)).out) ==
            Listen(ReplyTo(e.out), ToolCallStart(index, id, name))
  {
    hide ReplyTo, TakeCalls, LastWith;
    var r, tc := ReplyTo(e.out), StreamToolCall(index, id, name, "");
    Unchanged(r);
    TakeSent(e, NoDelta.(role := "assistant"), None);
    var t := if e.started then e else Send(e, NoDelta.(role := "assistant"), None).(started := true);
    TakeSent(t, NoDelta.(toolCalls := [tc]), None);
    TakeOne(r.calls, tc);
  }

  lemma ArgumentsSent(e: OEnc, index: int, arguments: string)
    ensures ReplyTo(OBody(e, ToolCallDelta(index, arguments)).out) ==
            Listen(ReplyTo(e.out), ToolCallDelta(index, arguments))
  {
    hide ReplyTo, TakeCalls, TakeCall;
    var r, tc := ReplyTo(e.out), StreamToolCall(index, "", "", arguments);
    Unchanged(r);
    TakeSent(e, NoDelta.(toolCalls := [tc]), None);
    TakeOne(r.calls, tc);
    NothingTaken(r.calls, index);
  }

  lemma NothingTaken(calls: seq<Call>, index: int)
    ensures TakeCall(calls, StreamToolCall(index, "", "", "")) == calls
  {
    var i := LastWith(calls, index);
    if i >= 0 {
      Unit(calls[i].arguments);
      assert calls[i := calls[i]] == calls;
    }
  }

  lemma RestSent(e: OEnc, body: EventBody)
    requires !body.TextDelta? && !body.ThinkingDelta? && !body.ToolCallStart? && !body.ToolCallDelta?
    ensures ReplyTo(OBody(e, body).out) == ReplyTo(e.out)
  {
    Unchanged(ReplyTo(e.out));
    if body.MessageStop? {
      TakeSent(e, NoDelta, Some(DenormalizeStop(body.stopReason)));
    } else if body.UsageFinal? && body.usage.Some? {
      var c := Chunk(e.responseID, e.model, [], Some(EncodeUsage(body.usage.value)));
      assert (e.out + [c])[..|e.out|] == e.out;
    }
  }

  lemma StepListens(e: OEnc, ev: StreamEvent)
    requires Identifiable(ev.body)
    ensures ReplyTo(OStep(e, ev).out) == Listen(ReplyTo(e.out), ev.body)
  {
    var l := Latch(e, ev);
    hide ReplyTo, OBody;
    match ev.body
    case TextDelta(_) => TextSent(l, ev.body);
    case ThinkingDelta(_) => TextSent(l, ev.body);
    case ToolCallStart(index, id, name) => StartSent(l, index, id, name);
    case ToolCallDelta(index, arguments) => ArgumentsSent(l, index, arguments);
    case _ => RestSent(l, ev.body);
  }

  predicate AllIdentifiable(events: seq<StreamEvent>) {
    forall ev :: ev in events ==> Identifiable(ev.body)
  }

  lemma {:induction false} RunListens(e: OEnc, a: Agg, events: seq<StreamEvent>)
    requires ReplyTo(e.out) == ReplyOf(a) && AllIdentifiable(events)
    ensures ReplyTo(ORun(e, events).out) == ReplyOf(ApplyAll(a, events))
    decreases |events|
  {
    hide ReplyTo, ReplyOf, OStep, Apply, Listen;
    if events != [] {
      assert events[0] in events && AllIdentifiable(events[1..]);
      StepListens(e, events[0]);
      ApplyListens(a, events[0]);
      RunListens(OStep(e, events[0]), Apply(a, events[0]), events[1..]);
    }
  }

  /**
    Whatever identifiable events are encoded, the client assembling the chunks holds the
    content, the reasoning and the tool calls, arguments included, that the aggregator
    holds after the same events; interleaved and stray deltas make no difference here.
   */
  lemma ChunksReadAsAggregated(events: seq<StreamEvent>)
    requires AllIdentifiable(events)
    ensures ReplyTo(ORun(OInit, events).out) == ReplyOf(ApplyAll(Empty, events))
  {
    assert ReplyTo(OInit.out) == ReplyOf(Empty);
    RunListens(OInit, Empty, events);
  }
}
