/**
  Which event sequences the encoder renders as a grammatical message: a watcher
  over the events, with no block numbers and no map, decides it exactly.
 */
module Discipline {
  import opened Types
  import opened AnthropicEncoder
  import opened Grammar

  /** The kind of the block that the events have left open. */
  datatype Kind = Closed | Text | Thinking | Tool(index: int)

  datatype Watch =
    | Watch(begun: bool, open: Kind, started: set<int>, usageSeen: bool, stop: string, told: bool)
    | Broken

  const Fresh := Watch(false, Closed, {}, false, "", false)

  /** Content may be sent: the message has begun and its closing delta is still to come. */
  function Content(w: Watch, open: Kind): Watch
    requires w.Watch?
  {
    if w.begun && !w.told then w.(open := open) else Broken
  }

  function WatchBody(w: Watch, body: EventBody): Watch
    requires w.Watch?
  {
    match body
    case TextDelta(text) => if text == "" then w else Content(w, Text)
    case ThinkingDelta(_) => Content(w, Thinking)
    case ThinkingSignature(_) => Content(w, Thinking)
    case ToolCallStart(index, _, _) => Content(w.(started := w.started + {index}), Tool(index))
    case ToolCallDelta(index, _) =>
      if w.open == Tool(index) || (w.open.Tool? && index !in w.started) then w else Broken
    case ToolCallEnd => w.(open := Closed)
    case WebSearch(_, _) => Content(w, Closed)
    case MessageStop(reason) =>
      if w.usageSeen && !w.told && !w.begun then Broken
      else w.(open := Closed, stop := reason, told := w.told || w.usageSeen)
    case UsageFinal(usage) =>
      var v := w.(usageSeen := w.usageSeen || usage.Some?);
      if w.stop == "" || w.told then v
      else if w.begun && w.open == Closed then v.(told := true)
      else Broken
  }

  function WatchStep(w: Watch, ev: StreamEvent): Watch {
    if w.Broken? then w else WatchBody(w.(begun := w.begun || Identified(ev)), ev.body)
  }

  function WatchAll(w: Watch, events: seq<StreamEvent>): Watch
    decreases |events|
  {
    if events == [] then w else WatchAll(WatchStep(w, events[0]), events[1..])
  }

  /** The event discipline: never broken, and the message did begin. */
  predicate Disciplined(events: seq<StreamEvent>) {
    var w := WatchAll(Fresh, events);
    w.Watch? && w.begun
  }

  // ----- the encoder follows the watcher -----

  predicate KindIs(open: Kind, h: Header) {
    match open
    case Closed => false
    case Text => h.TextHeader?
    case Thinking => h.ThinkingHeader?
    case Tool(_) => h.ToolUseHeader?
  }

  ghost predicate PhaseFits(s: Enc, w: Watch, p: Phase)
    requires w.Watch?
  {
    if w.told then p == Told
    else if !w.begun then p == Begin
    else if w.open.Closed? then p == Between(s.blockIdx)
    else p.Inside? && p.index == s.blockIdx && KindIs(w.open, p.header)
  }

  ghost predicate MapFits(s: Enc, w: Watch)
    requires w.Watch?
  {
    && s.toolCallBlocks.Keys == w.started
    && (forall k :: k in s.toolCallBlocks ==> s.toolCallBlocks[k] <= s.blockIdx)
    && (w.open.Tool? ==> w.open.index in s.toolCallBlocks && s.toolCallBlocks[w.open.index] == s.blockIdx)
    && (forall k :: k in s.toolCallBlocks && s.toolCallBlocks[k] == s.blockIdx ==> w.open == Tool(k))
  }

  ghost predicate Tracks(s: Enc, w: Watch) {
    && w.Watch?
    && s.messageStarted == w.begun
    && s.stopReason == w.stop
    && s.usage.Some? == w.usageSeen
    && s.messageDeltaEmitted == w.told
    && s.blockOpen == !w.open.Closed?
    && (s.blockOpen ==> w.begun && !w.told)
    && (w.told ==> w.begun)
    && (!w.begun ==> s.blockIdx == 0)
    && s.blockType == (if w.open.Text? then "text" else if w.open.Thinking? then "thinking" else "")
    && PhaseFits(s, w, PhaseOf(s.out))
    && MapFits(s, w)
  }

  ghost predicate Follows(t: Enc, w: Watch) {
    if w.Broken? then PhaseOf(t.out) == Bad else Tracks(t, w)
  }

  lemma PutPhase(s: Enc, x: Sse)
    ensures PhaseOf(Put(s, x).out) == Read(PhaseOf(s.out), x)
  {
  }

  lemma StepKeepsBad(s: Enc, ev: StreamEvent)
    requires PhaseOf(s.out) == Bad
    ensures PhaseOf(Step(s, ev).out) == Bad
  {
    var bare := s.(out := []);
    assert s.out + [] == s.out;
    StepAfter(s.out, bare, ev);
    ReadAppend(Begin, s.out, Step(bare, ev).out);
    BadForever(Step(bare, ev).out);
  }

  lemma FinishKeepsBad(s: Enc)
    requires PhaseOf(s.out) == Bad
    ensures PhaseOf(Finish(s).out) == Bad
  {
    var bare := s.(out := []);
    assert s.out + [] == s.out;
    FinishAfter(s.out, bare);
    ReadAppend(Begin, s.out, Finish(bare).out);
    BadForever(Finish(bare).out);
  }

  lemma CloseTracks(s: Enc, w: Watch)
    requires Tracks(s, w)
    ensures Tracks(Close(s), w.(open := Closed))
  {
  }

  /** Opening a block outside a running message is an error the grammar sees. */
  lemma OpenPhase(s: Enc, w: Watch, h: Header, blockType: string)
    requires Tracks(s, w) && !s.blockOpen
    ensures PhaseOf(Open(s, h, blockType).out) == if w.begun && !w.told then Inside(s.blockIdx, h) else Bad
  {
  }

  /** What holds of the block that text or thinking is written to: it is open, or the stream is spoilt. */
  ghost predicate Writable(b: Enc, kind: Kind) {
    var p := PhaseOf(b.out);
    p == Bad || (p.Inside? && p.index == b.blockIdx && KindIs(kind, p.header))
  }

  lemma OpenTracks(s: Enc, w: Watch, kind: Kind)
    requires Tracks(s, w) && !s.blockOpen && (kind == Text || kind == Thinking)
    ensures var b :=
            Open(s, if kind == Text then TextHeader else ThinkingHeader, if kind == Text then "text" else "thinking");
            Follows(b, Content(w, kind)) && Writable(b, kind)
  {
    OpenPhase(s, w, if kind == Text then TextHeader else ThinkingHeader, if kind == Text then "text" else "thinking");
    hide PhaseOf;
  }

  lemma EnsureTracks(s: Enc, w: Watch, kind: Kind)
    requires Tracks(s, w) && (kind == Text || kind == Thinking)
    ensures var b := EnsureBlock(s, if kind == Text then "text" else "thinking");
            Follows(b, Content(w, kind)) && Writable(b, kind)
  {
    CloseTracks(s, w);
    hide PhaseOf, MapFits, Open, Close;
    if !(s.blockOpen && s.blockType == if kind == Text then "text" else "thinking") {
      NothingOpen(s);
      OpenTracks(Close(s), w.(open := Closed), kind);
    }
  }

  lemma NothingOpen(s: Enc)
    ensures !Close(s).blockOpen
  {
  }

  /** A delta that belongs to the open block changes nothing the watcher sees. */
  lemma PieceTracks(s: Enc, w: Watch, index: nat, d: Delta)
    requires Follows(s, w)
    requires PhaseOf(s.out) == Bad ||
             (PhaseOf(s.out).Inside? && PhaseOf(s.out).index == index && Fits(d, PhaseOf(s.out).header))
    ensures Follows(Put(s, BlockDelta(index, d)), w)
  {
    PutPhase(s, BlockDelta(index, d));
  }

  lemma StandaloneTracks(s: Enc, w: Watch, h: Header)
    requires Follows(s, w) && (w.Broken? || w.open.Closed?)
    ensures Follows(Standalone(s, h), if w.Broken? then w else Content(w, Closed))
  {
    if w.Broken? {
      StandaloneKeepsBad(s, h);
    } else {
      OpenPhase(s, w, h, "");
      var b := Open(s, h, "");
      PutPhase(b, BlockStop(b.blockIdx));
    }
  }

  lemma StandaloneKeepsBad(s: Enc, h: Header)
    requires PhaseOf(s.out) == Bad
    ensures PhaseOf(Standalone(s, h).out) == Bad
  {
    PutPhase(s, BlockStop(s.blockIdx));
    var c := Close(s);
    PutPhase(c, BlockStart(c.blockIdx, h));
    var b := Open(c, h, "");
    PutPhase(b, BlockStop(b.blockIdx));
  }

  lemma EmitTracks(s: Enc, w: Watch)
    requires Tracks(s, w) && !w.told
    ensures Follows(EmitMessageDelta(s), if w.begun && w.open.Closed? then w.(told := true) else Broken)
  {
    PutPhase(s, EmitMessageDelta(s).out[|s.out|]);
  }

  lemma ToolStartTracks(s: Enc, w: Watch, index: int, id: string, name: string)
    requires Tracks(s, w) && w.open.Closed?
    ensures Follows(StartToolCall(s, index, id, name), Content(w.(started := w.started + {index}), Tool(index)))
  {
    PutPhase(s, BlockStart(s.blockIdx, ToolUseHeader(id, name)));
  }

  lemma ToolDeltaTracks(s: Enc, w: Watch, index: int, arguments: string)
    requires Tracks(s, w)
    ensures Follows(Put(s, BlockDelta(Target(s, index), InputJsonPiece(arguments))),
            WatchBody(w, ToolCallDelta(index, arguments)))
  {
    PutPhase(s, BlockDelta(Target(s, index), InputJsonPiece(arguments)));
  }

  lemma BodyTracks(s: Enc, w: Watch, body: EventBody)
    requires Tracks(s, w)
    requires body.UsageFinal? && body.usage.Some? ==> w.usageSeen
    ensures Follows(Dispatch(s, body), WatchBody(w, body))
  {
    hide EnsureBlock, Standalone, StartToolCall, Close, PhaseOf, MapFits;
    match body
    case TextDelta(text) =>
      if text != "" {
        EnsureTracks(s, w, Text);
        var b := EnsureBlock(s, "text");
        PieceTracks(b, Content(w, Text), b.blockIdx, TextPiece(text));
      }
    case ThinkingDelta(text) =>
      EnsureTracks(s, w, Thinking);
      var b := EnsureBlock(s, "thinking");
      PieceTracks(b, Content(w, Thinking), b.blockIdx, ThinkingPiece(text));
    case ThinkingSignature(signature) =>
      EnsureTracks(s, w, Thinking);
      var b := EnsureBlock(s, "thinking");
      PieceTracks(b, Content(w, Thinking), b.blockIdx, SignaturePiece(signature));
    case ToolCallStart(index, id, name) =>
      CloseTracks(s, w);
      ToolStartTracks(Close(s), w.(open := Closed), index, id, name);
    case ToolCallDelta(index, arguments) => ToolDeltaTracks(s, w, index, arguments);
    case ToolCallEnd => CloseTracks(s, w);
    case WebSearch(id, results) =>
      CloseTracks(s, w);
      var c := w.(open := Closed);
      StandaloneTracks(Close(s), c, ServerToolUseHeader(id));
      StandaloneTracks(Standalone(Close(s), ServerToolUseHeader(id)), Content(c, Closed),
          SearchResultHeader(id, results));
    case MessageStop(reason) =>
      CloseTracks(s, w);
      var c, v := Close(s).(stopReason := reason), w.(open := Closed, stop := reason);
      StopNoted(Close(s), w.(open := Closed), reason);
      if c.usage.Some? && !c.messageDeltaEmitted {
        EmitTracks(c, v);
      }
    case UsageFinal(_) =>
      if s.stopReason != "" && !s.messageDeltaEmitted {
        EmitTracks(s, w);
      }
  }

  lemma StopNoted(s: Enc, w: Watch, reason: string)
    requires Tracks(s, w)
    ensures Tracks(s.(stopReason := reason), w.(stop := reason))
  {
  }

  lemma StepFollows(s: Enc, w: Watch, ev: StreamEvent)
    requires Follows(s, w)
    ensures Follows(Step(s, ev), WatchStep(w, ev))
  {
    hide Dispatch, PhaseFits, MapFits, PhaseOf;
    if w.Broken? {
      StepKeepsBad(s, ev);
    } else {
      StartFollows(s, w, ev);
      var m := StartMessage(NoteUsage(s, ev), ev);
      var v := w.(begun := w.begun || Identified(ev),
          usageSeen := w.usageSeen || (ev.body.UsageFinal? && ev.body.usage.Some?));
      BodyTracks(m, v, ev.body);
      assert WatchStep(w, ev) == WatchBody(v, ev.body);
    }
  }

  lemma StartFollows(s: Enc, w: Watch, ev: StreamEvent)
    requires Tracks(s, w)
    ensures Tracks(StartMessage(NoteUsage(s, ev), ev),
                   w.(begun := w.begun || Identified(ev),
                      usageSeen := w.usageSeen || (ev.body.UsageFinal? && ev.body.usage.Some?)))
  {
    var n := NoteUsage(s, ev);
    PutPhase(n, MessageStart(ev.responseID, ev.model, Payload(n.usage)));
  }

  lemma {:induction false} RunFollows(s: Enc, w: Watch, events: seq<StreamEvent>)
    requires Follows(s, w)
    ensures Follows(Run(s, events), WatchAll(w, events))
    decreases |events|
  {
    if events != [] {
      hide Step, WatchStep, Follows;
      StepFollows(s, w, events[0]);
      RunFollows(Step(s, events[0]), WatchStep(w, events[0]), events[1..]);
    }
  }

  lemma FinishFollows(s: Enc, w: Watch)
    requires Tracks(s, w)
    ensures PhaseOf(Finish(s).out) == if w.begun then Ended else Bad
  {
    hide MapFits, PhaseOf;
    CloseTracks(s, w);
    var c := Close(s);
    if !c.messageDeltaEmitted && (c.stopReason != "" || c.usage.Some?) {
      EmitTracks(c, w.(open := Closed));
      PutPhase(EmitMessageDelta(c), MessageEnd);
    } else {
      PutPhase(c, MessageEnd);
    }
  }

  /**
    The whole stream, closed by `Done`, is a grammatical message if and only if the
    events are disciplined.
   */
  lemma StreamIsGrammatical(events: seq<StreamEvent>)
    ensures Grammatical(Finish(Run(Init, events)).out) <==> Disciplined(events)
  {
    assert Tracks(Init, Fresh);
    RunFollows(Init, Fresh, events);
    var s, w := Run(Init, events), WatchAll(Fresh, events);
    if w.Broken? {
      FinishKeepsBad(s);
    } else {
      FinishFollows(s, w);
    }
    AutomatonMeetsGrammar(Finish(s).out);
  }
}
