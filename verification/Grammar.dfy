/**
  The grammar of an Anthropic message stream, and exactly which event sequences
  the encoder turns into a stream of that grammar.
 */
module Grammar {
  import opened Wrappers
  import opened AnthropicEncoder

  // ----- the grammar, declaratively -----

  /** One content block: its header and the pieces sent while it is open. */
  datatype Section = Section(header: Header, pieces: seq<Delta>)

  datatype Message = Message(
    id: string, model: string, usage: UsagePayload,
    sections: seq<Section>, closing: Option<(string, UsagePayload)>)

  predicate Fits(d: Delta, h: Header) {
    match d
    case TextPiece(_) => h.TextHeader?
    case ThinkingPiece(_) => h.ThinkingHeader?
    case SignaturePiece(_) => h.ThinkingHeader?
    case InputJsonPiece(_) => h.ToolUseHeader?
  }

  predicate WellTyped(m: Message) {
    forall s :: s in m.sections ==> forall d :: d in s.pieces ==> Fits(d, s.header)
  }

  function RenderPieces(index: nat, pieces: seq<Delta>): seq<Sse> {
    seq(|pieces|, k requires 0 <= k < |pieces| => BlockDelta(index, pieces[k]))
  }

  function RenderSections(sections: seq<Section>): seq<Sse> {
    if sections == [] then []
    else
      var n := |sections| - 1;
      RenderSections(sections[..n]) +
      ([BlockStart(n, sections[n].header)] + RenderPieces(n, sections[n].pieces) + [BlockStop(n)])
  }

  /** message_start, blocks numbered 0, 1, 2, ..., at most one message_delta, message_stop. */
  function Render(m: Message): seq<Sse> {
    [MessageStart(m.id, m.model, m.usage)] + RenderSections(m.sections) +
    (if m.closing.Some? then [MessageDelta(m.closing.value.0, m.closing.value.1)] else []) + [MessageEnd]
  }

  ghost predicate Grammatical(trace: seq<Sse>) {
    exists m :: WellTyped(m) && Render(m) == trace
  }

  // ----- the grammar, as an automaton -----

  datatype Phase = Begin | Between(next: nat) | Inside(index: nat, header: Header) | Told | Ended | Bad

  function Read(p: Phase, x: Sse): Phase {
    match p
    case Begin => if x.MessageStart? then Between(0) else Bad
    case Between(n) =>
      if x.BlockStart? && x.index == n then Inside(n, x.header)
      else if x.MessageDelta? then Told
      else if x.MessageEnd? then Ended
      else Bad
    case Inside(i, h) =>
      if x.BlockDelta? && x.index == i && Fits(x.delta, h) then p
      else if x.BlockStop? && x.index == i then Between(i + 1)
      else Bad
    case Told => if x.MessageEnd? then Ended else Bad
    case _ => Bad
  }

  function ReadAll(p: Phase, trace: seq<Sse>): Phase {
    if trace == [] then p else Read(ReadAll(p, trace[..|trace| - 1]), trace[|trace| - 1])
  }

  function PhaseOf(trace: seq<Sse>): Phase {
    ReadAll(Begin, trace)
  }

  lemma ReadPut(p: Phase, trace: seq<Sse>, x: Sse)
    ensures ReadAll(p, trace + [x]) == Read(ReadAll(p, trace), x)
  {
  }

  lemma {:induction false} ReadAppend(p: Phase, a: seq<Sse>, b: seq<Sse>)
    ensures ReadAll(p, a + b) == ReadAll(ReadAll(p, a), b)
  {
    if b == [] {
      assert a + b == a;
    } else {
      var n := |b| - 1;
      ReadAppend(p, a, b[..n]);
      assert a + b == (a + b[..n]) + [b[n]];
      ReadPut(p, a + b[..n], b[n]);
    }
  }

  lemma {:induction false} BadForever(trace: seq<Sse>)
    ensures ReadAll(Bad, trace) == Bad
  {
    if trace != [] {
      BadForever(trace[..|trace| - 1]);
    }
  }

  lemma {:induction false} ReadPieces(h: Header, index: nat, pieces: seq<Delta>)
    requires forall d :: d in pieces ==> Fits(d, h)
    ensures ReadAll(Inside(index, h), RenderPieces(index, pieces)) == Inside(index, h)
  {
    if pieces != [] {
      var n := |pieces| - 1;
      ReadPieces(h, index, pieces[..n]);
      assert RenderPieces(index, pieces) == RenderPieces(index, pieces[..n]) + [BlockDelta(index, pieces[n])];
      ReadPut(Inside(index, h), RenderPieces(index, pieces[..n]), BlockDelta(index, pieces[n]));
    }
  }

  lemma ReadSection(n: nat, s: Section)
    requires forall d :: d in s.pieces ==> Fits(d, s.header)
    ensures ReadAll(Between(n), [BlockStart(n, s.header)] + RenderPieces(n, s.pieces) + [BlockStop(n)]) ==
            Between(n + 1)
  {
    var start, body := [BlockStart(n, s.header)], RenderPieces(n, s.pieces);
    assert ReadAll(Between(n), []) == Between(n);
    hide ReadAll, RenderPieces;
    ReadPut(Between(n), [], BlockStart(n, s.header));
    Unit(start);
    ReadPieces(s.header, n, s.pieces);
    ReadAppend(Between(n), start, body);
    ReadPut(Between(n), start + body, BlockStop(n));
  }

  lemma {:induction false} ReadSections(sections: seq<Section>)
    requires forall s :: s in sections ==> forall d :: d in s.pieces ==> Fits(d, s.header)
    ensures ReadAll(Between(0), RenderSections(sections)) == Between(|sections|)
  {
    if sections != [] {
      var n := |sections| - 1;
      var s := sections[n];
      assert s in sections;
      var last := [BlockStart(n, s.header)] + RenderPieces(n, s.pieces) + [BlockStop(n)];
      assert RenderSections(sections) == RenderSections(sections[..n]) + last;
      hide ReadAll, RenderPieces, RenderSections;
      ReadSections(sections[..n]);
      ReadSection(n, s);
      ReadAppend(Between(0), RenderSections(sections[..n]), last);
    }
  }

  lemma RenderedIsRead(m: Message)
    requires WellTyped(m)
    ensures PhaseOf(Render(m)) == Ended
  {
    var start := [MessageStart(m.id, m.model, m.usage)];
    var closing := if m.closing.Some? then [MessageDelta(m.closing.value.0, m.closing.value.1)] else [];
    ReadPut(Begin, [], start[0]);
    assert [] + start == start;
    ReadSections(m.sections);
    ReadAppend(Begin, start, RenderSections(m.sections));
    var upto := start + RenderSections(m.sections);
    if m.closing.Some? {
      ReadPut(Begin, upto, closing[0]);
    } else {
      assert upto + closing == upto;
    }
    ReadPut(Begin, upto + closing, MessageEnd);
  }

  /** The part of a message read so far, while the automaton is not at its end. */
  ghost predicate Prefix(trace: seq<Sse>, id: string, model: string, usage: UsagePayload, sections: seq<Section>) {
    && trace == [MessageStart(id, model, usage)] + RenderSections(sections)
    && forall s :: s in sections ==> forall d :: d in s.pieces ==> Fits(d, s.header)
  }

  ghost predicate OpenPrefix(trace: seq<Sse>, id: string, model: string, usage: UsagePayload,
                             sections: seq<Section>, h: Header, pieces: seq<Delta>) {
    && trace == [MessageStart(id, model, usage)] + RenderSections(sections) +
                ([BlockStart(|sections|, h)] + RenderPieces(|sections|, pieces))
    && (forall s :: s in sections ==> forall d :: d in s.pieces ==> Fits(d, s.header))
    && forall d :: d in pieces ==> Fits(d, h)
  }

  ghost predicate ToldPrefix(trace: seq<Sse>, id: string, model: string, usage: UsagePayload,
                             sections: seq<Section>, reason: string, payload: UsagePayload) {
    && trace == [MessageStart(id, model, usage)] + RenderSections(sections) + [MessageDelta(reason, payload)]
    && forall s :: s in sections ==> forall d :: d in s.pieces ==> Fits(d, s.header)
  }

  ghost predicate Explained(trace: seq<Sse>, p: Phase) {
    match p
    case Begin => trace == []
    case Between(n) => exists id, model, usage, ss :: Prefix(trace, id, model, usage, ss) && |ss| == n
    case Inside(i, h) => exists id, model, usage, ss, ds :: OpenPrefix(trace, id, model, usage, ss, h, ds) && |ss| == i
    case Told => exists id, model, usage, ss, reason, payload ::
        ToldPrefix(trace, id, model, usage, ss, reason, payload)
    case Ended => Grammatical(trace)
    case Bad => true
  }

  lemma {:induction false} ReadIsExplained(trace: seq<Sse>)
    ensures Explained(trace, PhaseOf(trace))
  {
    if trace != [] {
      var n := |trace| - 1;
      var before, x := trace[..n], trace[n];
      ReadIsExplained(before);
      assert trace == before + [x];
      ReadPut(Begin, before, x);
      hide Render, RenderSections, RenderPieces, Grammatical, ReadAll, Prefix, OpenPrefix, ToldPrefix;
      match PhaseOf(before) {
        case Begin =>
          ExplainBegin(x);
          assert [] + [x] == [x];
        case Between(k) =>
          var id, model, usage, ss :| Prefix(before, id, model, usage, ss) && |ss| == k;
          ExplainBetween(before, x, id, model, usage, ss);
        case Inside(k, h) =>
          var id, model, usage, ss, ds :| OpenPrefix(before, id, model, usage, ss, h, ds) && |ss| == k;
          ExplainInside(before, x, id, model, usage, ss, h, ds);
        case Told =>
          var id, model, usage, ss, reason, payload :| ToldPrefix(before, id, model, usage, ss, reason, payload);
          ExplainTold(before, x, id, model, usage, ss, reason, payload);
        case _ =>
      }
    }
  }

  lemma ExplainBegin(x: Sse)
    ensures Explained([x], Read(Begin, x))
  {
    if x.MessageStart? {
      assert Prefix([x], x.id, x.model, x.usage, []);
    }
  }

  lemma ExplainTold(before: seq<Sse>, x: Sse, id: string, model: string, usage: UsagePayload,
                    ss: seq<Section>, reason: string, payload: UsagePayload)
    requires ToldPrefix(before, id, model, usage, ss, reason, payload)
    ensures Explained(before + [x], Read(Told, x))
  {
    if x.MessageEnd? {
      var m := Message(id, model, usage, ss, Some((reason, payload)));
      assert WellTyped(m) && Render(m) == before + [x];
    }
  }

  lemma ExplainBetween(before: seq<Sse>, x: Sse, id: string, model: string, usage: UsagePayload, ss: seq<Section>)
    requires Prefix(before, id, model, usage, ss)
    ensures Explained(before + [x], Read(Between(|ss|), x))
  {
    var trace := before + [x];
    if x.BlockStart? && x.index == |ss| {
      assert RenderPieces(|ss|, []) == [];
      assert OpenPrefix(trace, id, model, usage, ss, x.header, []);
    } else if x.MessageDelta? {
      assert ToldPrefix(trace, id, model, usage, ss, x.stopReason, x.usage);
    } else if x.MessageEnd? {
      var m := Message(id, model, usage, ss, None);
      assert WellTyped(m) && Render(m) == trace;
    }
  }

  lemma ExplainPiece(before: seq<Sse>, d: Delta, id: string, model: string, usage: UsagePayload,
                     ss: seq<Section>, h: Header, ds: seq<Delta>)
    requires OpenPrefix(before, id, model, usage, ss, h, ds) && Fits(d, h)
    ensures OpenPrefix(before + [BlockDelta(|ss|, d)], id, model, usage, ss, h, ds + [d])
  {
    assert RenderPieces(|ss|, ds + [d]) == RenderPieces(|ss|, ds) + [BlockDelta(|ss|, d)];
    hide RenderPieces, RenderSections;
    var front := [MessageStart(id, model, usage)] + RenderSections(ss) + [BlockStart(|ss|, h)];
    Associate(front, RenderPieces(|ss|, ds), [BlockDelta(|ss|, d)]);
  }

  lemma ExplainStop(before: seq<Sse>, id: string, model: string, usage: UsagePayload,
                    ss: seq<Section>, h: Header, ds: seq<Delta>)
    requires OpenPrefix(before, id, model, usage, ss, h, ds)
    ensures Prefix(before + [BlockStop(|ss|)], id, model, usage, ss + [Section(h, ds)])
  {
    var more := ss + [Section(h, ds)];
    assert more[..|ss|] == ss;
  }

  lemma ExplainInside(before: seq<Sse>, x: Sse, id: string, model: string, usage: UsagePayload,
                      ss: seq<Section>, h: Header, ds: seq<Delta>)
    requires OpenPrefix(before, id, model, usage, ss, h, ds)
    ensures Explained(before + [x], Read(Inside(|ss|, h), x))
  {
    hide OpenPrefix, Prefix;
    if x.BlockDelta? && x.index == |ss| && Fits(x.delta, h) {
      ExplainPiece(before, x.delta, id, model, usage, ss, h, ds);
    } else if x.BlockStop? && x.index == |ss| {
      ExplainStop(before, id, model, usage, ss, h, ds);
    }
  }

  /** The automaton accepts exactly the renderings of well-typed messages. */
  lemma AutomatonMeetsGrammar(trace: seq<Sse>)
    ensures PhaseOf(trace) == Ended <==> Grammatical(trace)
  {
    ReadIsExplained(trace);
    if m :| WellTyped(m) && Render(m) == trace {
      RenderedIsRead(m);
    }
  }
}
