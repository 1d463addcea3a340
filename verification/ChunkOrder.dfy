/**
  Lifting the stream grammar to upstream chunks: the decoder's order inside a chunk
  (thinking, text, tool calls, stop, usage) makes an orderly chunk sequence come out
  as one grammatical Anthropic message.
 */
module ChunkOrder {
  import opened Wrappers
  import opened Types
  import opened AnthropicEncoder
  import opened Grammar
  import opened Discipline
  import opened OpenAIStream

  /** Which tool call may still receive arguments, and whether a stop has been sent. */
  datatype Turn = Turn(owner: Option<int>, stopped: bool) | Disorder

  // ----- upstream chunks -----

  predicate HasPlainContent(d: StreamDelta) {
    || (d.reasoningContent.Some? && d.reasoningContent.value != "")
    || (d.content.Some? && d.content.value != "")
    || (exists b :: b in d.thinkingBlocks && b.signature.Some? && b.signature.value != "")
  }

  /** One tool entry: an id starts the call; bare arguments must be for the call just started. */
  function EntryTurn(t: Turn, tc: StreamToolCall): Turn {
    if t.Disorder? || (tc.id == "" && tc.arguments == "") then t
    else if t.stopped then Disorder
    else if tc.id != "" then t.(owner := Some(tc.index))
    else if t.owner == Some(tc.index) then t
    else Disorder
  }

  function EntriesTurn(t: Turn, calls: seq<StreamToolCall>): Turn {
    if calls == [] then t else EntryTurn(EntriesTurn(t, calls[..|calls| - 1]), calls[|calls| - 1])
  }

  function PlainTurn(t: Turn, d: StreamDelta): Turn {
    if t.Disorder? || !HasPlainContent(d) then t
    else if t.stopped then Disorder
    else t.(owner := None)
  }

  function FinishTurn(t: Turn, finish: Option<string>): Turn {
    if t.Disorder? || finish.None? || finish.value == "" then t else Turn(None, true)
  }

  /** Content only before the stop; usage may come at any time. */
  function ChunkTurn(t: Turn, c: Chunk): Turn {
    if c.choices == [] then t
    else FinishTurn(EntriesTurn(PlainTurn(t, c.choices[0].delta), c.choices[0].delta.toolCalls),
        c.choices[0].finishReason)
  }

  function ChunksTurn(chunks: seq<Chunk>): Turn {
    if chunks == [] then Turn(None, false) else ChunkTurn(ChunksTurn(chunks[..|chunks| - 1]), chunks[|chunks| - 1])
  }

  predicate Orderly(chunks: seq<Chunk>) {
    ChunksTurn(chunks).Turn?
  }

  // ----- the same discipline on events -----

  function EventTurn(t: Turn, body: EventBody): Turn {
    if t.Disorder? || body.UsageFinal? then t
    else
      match body
      case MessageStop(reason) => if reason == "" then Disorder else Turn(None, true)
      case ToolCallStart(index, _, _) => if t.stopped then Disorder else t.(owner := Some(index))
      case ToolCallDelta(index, _) => if t.owner == Some(index) && !t.stopped then t else Disorder
      case _ => if t.stopped then Disorder else t.(owner := None)
  }

  function EventsTurn(t: Turn, events: seq<StreamEvent>): Turn {
    if events == [] then t else EventTurn(EventsTurn(t, events[..|events| - 1]), events[|events| - 1].body)
  }

  lemma {:induction false} EventsTurnAppend(t: Turn, a: seq<StreamEvent>, b: seq<StreamEvent>)
    ensures EventsTurn(t, a + b) == EventsTurn(EventsTurn(t, a), b)
  {
    if b == [] {
      assert a + b == a;
    } else {
      var n := |b| - 1;
      EventsTurnAppend(t, a, b[..n]);
      assert (a + b)[..|a| + n] == a + b[..n];
    }
  }

  lemma OneEvent(t: Turn, ev: StreamEvent)
    ensures EventsTurn(t, [ev]) == EventTurn(t, ev.body)
  {
  }

  lemma EntryDecodes(t: Turn, c: Chunk, tc: StreamToolCall)
    requires EntryTurn(t, tc).Turn?
    ensures EventsTurn(t, ToolCallEvents(c, tc)) == EntryTurn(t, tc)
  {
    var start, more := At(c, ToolCallStart(tc.index, tc.id, tc.name)), At(c, ToolCallDelta(tc.index, tc.arguments));
    OneEvent(t, start);
    OneEvent(t, more);
    EventsTurnAppend(t, [start], [more]);
    OneEvent(EventTurn(t, start.body), more);
    assert [] + [more] == [more] && [start] + [] == [start];
  }

  lemma {:induction false} EntriesDecode(t: Turn, c: Chunk, calls: seq<StreamToolCall>)
    requires EntriesTurn(t, calls).Turn?
    ensures EventsTurn(t, ToolEvents(c, calls)) == EntriesTurn(t, calls)
  {
    if calls != [] {
      var n := |calls| - 1;
      EntriesDecode(t, c, calls[..n]);
      EventsTurnAppend(t, ToolEvents(c, calls[..n]), ToolCallEvents(c, calls[n]));
      EntryDecodes(EntriesTurn(t, calls[..n]), c, calls[n]);
    }
  }

  /** Thinking, signature and text events only close the current tool call. */
  predicate Plain(events: seq<StreamEvent>) {
    forall ev :: ev in events ==> ev.body.TextDelta? || ev.body.ThinkingDelta? || ev.body.ThinkingSignature?
  }

  lemma {:induction false} PlainEvents(t: Turn, events: seq<StreamEvent>)
    requires Plain(events) && t.Turn? && (events == [] || !t.stopped)
    ensures EventsTurn(t, events) == if events == [] then t else t.(owner := None)
  {
    if events != [] {
      PlainEvents(t, events[..|events| - 1]);
      assert events[|events| - 1] in events;
    }
  }

  lemma {:induction false} SignaturesPresent(c: Chunk, blocks: seq<ThinkingBlock>)
    ensures Plain(SignatureEvents(c, blocks))
    ensures SignatureEvents(c, blocks) == [] <==>
            !exists b :: b in blocks && b.signature.Some? && b.signature.value != ""
  {
    if blocks != [] {
      var n := |blocks| - 1;
      SignaturesPresent(c, blocks[..n]);
      assert blocks == blocks[..n] + [blocks[n]];
    }
  }

  lemma PlainDecodes(t: Turn, c: Chunk, d: StreamDelta)
    requires PlainTurn(t, d).Turn?
    ensures EventsTurn(t, ReasoningEvents(c, d) + SignatureEvents(c, d.thinkingBlocks) + TextEvents(c, d)) ==
            PlainTurn(t, d)
  {
    SignaturesPresent(c, d.thinkingBlocks);
    hide SignatureEvents;
    PlainEvents(t, ReasoningEvents(c, d) + SignatureEvents(c, d.thinkingBlocks) + TextEvents(c, d));
  }

  lemma ChunkDecodes(t: Turn, c: Chunk)
    requires ChunkTurn(t, c).Turn?
    ensures EventsTurn(t, DecodeChunk(c)) == ChunkTurn(t, c)
  {
    var content: seq<StreamEvent> := [];
    if c.choices != [] {
      var d, finish := c.choices[0].delta, c.choices[0].finishReason;
      var plain, tools, stop := ReasoningEvents(c, d) + SignatureEvents(c, d.thinkingBlocks) + TextEvents(c, d),
                                ToolEvents(c, d.toolCalls), StopEvents(c, finish);
      var p := PlainTurn(t, d);
      var q := EntriesTurn(p, d.toolCalls);
      EntriesTurnSticky(p, d.toolCalls);
      PlainDecodes(t, c, d);
      EntriesDecode(p, c, d.toolCalls);
      StopDecodes(q, c, finish);
      hide HasPlainContent, PlainTurn, EntriesTurn, FinishTurn, ToolEvents, SignatureEvents, StopEvents;
      EventsTurnAppend(t, plain, tools);
      EventsTurnAppend(t, plain + tools, stop);
      content := plain + tools + stop;
    }
    EventsTurnAppend(t, content, UsageEvents(c));
    if c.usage.Some? {
      OneEvent(EventsTurn(t, content), UsageEvents(c)[0]);
    }
    hide ReasoningEvents, TextEvents, ToolEvents, SignatureEvents, StopEvents, ChunkTurn, UsageEvents;
    assert DecodeChunk(c) == content + UsageEvents(c);
  }

  lemma {:induction false} EntriesTurnSticky(t: Turn, calls: seq<StreamToolCall>)
    ensures t.Disorder? ==> EntriesTurn(t, calls).Disorder?
  {
    if calls != [] {
      EntriesTurnSticky(t, calls[..|calls| - 1]);
    }
  }

  lemma StopDecodes(t: Turn, c: Chunk, finish: Option<string>)
    requires t.Turn?
    ensures EventsTurn(t, StopEvents(c, finish)) == FinishTurn(t, finish)
  {
  }

  lemma {:induction false} ChunksDecode(chunks: seq<Chunk>)
    requires Orderly(chunks)
    ensures EventsTurn(Turn(None, false), DecodeAll(chunks)) == ChunksTurn(chunks)
  {
    hide ChunkTurn, DecodeChunk;
    if chunks != [] {
      var n := |chunks| - 1;
      ChunkSticky(ChunksTurn(chunks[..n]), chunks[n]);
      ChunksDecode(chunks[..n]);
      EventsTurnAppend(Turn(None, false), DecodeAll(chunks[..n]), DecodeChunk(chunks[n]));
      ChunkDecodes(ChunksTurn(chunks[..n]), chunks[n]);
    }
  }

  lemma ChunkSticky(t: Turn, c: Chunk)
    ensures t.Disorder? ==> ChunkTurn(t, c).Disorder?
  {
    if c.choices != [] {
      EntriesTurnSticky(PlainTurn(t, c.choices[0].delta), c.choices[0].delta.toolCalls);
    }
  }

  // ----- from orderly events to the watcher -----

  ghost predicate Agrees(w: Watch, t: Turn) {
    && w.Watch? && t.Turn?
    && (t.owner.Some? ==> w.open == Tool(t.owner.value))
    && (t.stopped ==> w.open.Closed?)
    && (w.told ==> t.stopped)
    && (w.stop != "" ==> t.stopped)
  }

  lemma WatchSnoc(w: Watch, events: seq<StreamEvent>, ev: StreamEvent)
    ensures WatchAll(w, events + [ev]) == WatchStep(WatchAll(w, events), ev)
    decreases |events|
  {
    hide WatchStep;
    if events == [] {
      assert WatchAll(w, [ev]) == WatchAll(WatchStep(w, ev), []);
    } else {
      assert (events + [ev])[1..] == events[1..] + [ev];
      WatchSnoc(WatchStep(w, events[0]), events[1..], ev);
    }
  }

  lemma {:induction false} OrderlyIsDisciplined(events: seq<StreamEvent>)
    requires EventsTurn(Turn(None, false), events).Turn?
    requires forall ev :: ev in events ==> Identified(ev)
    ensures Agrees(WatchAll(Fresh, events), EventsTurn(Turn(None, false), events))
    ensures events != [] ==> WatchAll(Fresh, events).begun
  {
    if events != [] {
      var rest, ev := events[..|events| - 1], events[|events| - 1];
      assert ev in events;
      OrderlyIsDisciplined(rest);
      WatchSnoc(Fresh, rest, ev);
      assert rest + [ev] == events;
      OrderlyStep(WatchAll(Fresh, rest), EventsTurn(Turn(None, false), rest), ev);
    }
  }

  lemma OrderlyStep(w: Watch, t: Turn, ev: StreamEvent)
    requires Agrees(w, t) && Identified(ev) && EventTurn(t, ev.body).Turn?
    ensures Agrees(WatchStep(w, ev), EventTurn(t, ev.body)) && WatchStep(w, ev).begun
  {
  }

  lemma {:induction false} TurnIgnoresIdentity(t: Turn, a: seq<StreamEvent>, b: seq<StreamEvent>)
    requires |a| == |b| && forall i :: 0 <= i < |a| ==> a[i].body == b[i].body
    ensures EventsTurn(t, a) == EventsTurn(t, b)
  {
    if a != [] {
      TurnIgnoresIdentity(t, a[..|a| - 1], b[..|b| - 1]);
    }
  }

  /**
    Orderly chunks, relayed under a response id and ended by `Done`, are a
    grammatical Anthropic message: every tool fragment goes to the call just
    started, and after a finish reason only usage follows.
   */
  lemma OrderlyChunksAreGrammatical(chunks: seq<Chunk>, id: string, model: string)
    requires Orderly(chunks) && id != "" && DecodeAll(chunks) != []
    ensures Grammatical(Finish(Run(Init, NormalizeAll(DecodeAll(chunks), id, model))).out)
  {
    var relayed := NormalizeAll(DecodeAll(chunks), id, model);
    ChunksDecode(chunks);
    TurnIgnoresIdentity(Turn(None, false), DecodeAll(chunks), relayed);
    OrderlyIsDisciplined(relayed);
    StreamIsGrammatical(relayed);
  }
}
