/**
  What a sequence of canonical events says, whoever reads it: the text, the thinking
  and the tool calls it starts. The aggregator reads exactly that.
 */
module Reading {
  import opened Wrappers
  import opened Types
  import opened OpenAIStream
  import opened Aggregate

  /** `calls` are the started tool calls as (id, name). */
  datatype Reading = Reading(text: string, thinking: string, calls: seq<(string, string)>)

  const Silent := Reading("", "", [])

  function Plus(a: Reading, b: Reading): Reading {
    Reading(a.text + b.text, a.thinking + b.thinking, a.calls + b.calls)
  }

  lemma PlusSilent(a: Reading)
    ensures Plus(a, Silent) == a == Plus(Silent, a)
  {
  }

  lemma PlusAssociates(a: Reading, b: Reading, c: Reading)
    ensures Plus(Plus(a, b), c) == Plus(a, Plus(b, c))
  {
    Associate(a.text, b.text, c.text);
    Associate(a.thinking, b.thinking, c.thinking);
    Associate(a.calls, b.calls, c.calls);
  }

  function BodyReads(body: EventBody): Reading {
    match body
    case TextDelta(text) => Silent.(text := text)
    case ThinkingDelta(thinking) => Silent.(thinking := thinking)
    case ToolCallStart(_, id, name) => Silent.(calls := [(id, name)])
    case _ => Silent
  }

  function Reads(events: seq<StreamEvent>): Reading
    decreases |events|
  {
    if events == [] then Silent else Plus(BodyReads(events[0].body), Reads(events[1..]))
  }

  lemma {:induction false} ReadsAppend(a: seq<StreamEvent>, b: seq<StreamEvent>)
    ensures Reads(a + b) == Plus(Reads(a), Reads(b))
    decreases |a|
  {
    hide BodyReads, Plus;
    if a == [] {
      Unit(b);
      PlusSilent(Reads(b));
    } else {
      assert (a + b)[1..] == a[1..] + b;
      ReadsAppend(a[1..], b);
      PlusAssociates(BodyReads(a[0].body), Reads(a[1..]), Reads(b));
    }
  }

  lemma {:induction false} ReadsIgnoresNames(events: seq<StreamEvent>, id: string, model: string)
    ensures Reads(NormalizeAll(events, id, model)) == Reads(events)
    decreases |events|
  {
    if events != [] {
      ReadsIgnoresNames(events[1..], id, model);
      assert NormalizeAll(events, id, model)[1..] == NormalizeAll(events[1..], id, model);
      hide Plus, BodyReads;
    }
  }

  // ----- the aggregator -----

  function NamesOf(calls: seq<Call>): seq<(string, string)> {
    seq(|calls|, i requires 0 <= i < |calls| => (calls[i].id, calls[i].name))
  }

  /** What an aggregate has read so far. */
  function Held(a: Agg): Reading {
    Reading(Join(a.textParts), Join(a.thinkingParts), NamesOf(a.toolCalls))
  }

  lemma ApplyReads(a: Agg, ev: StreamEvent)
    ensures Held(Apply(a, ev)) == Plus(Held(a), BodyReads(ev.body))
  {
    Unit(Join(a.textParts));
    Unit(Join(a.thinkingParts));
    Unit(NamesOf(a.toolCalls));
    match ev.body {
      case TextDelta(text) =>
        JoinSnoc(a.textParts, text);
        hide Join, NamesOf;
      case ThinkingDelta(text) =>
        JoinSnoc(a.thinkingParts, text);
        hide Join, NamesOf;
      case ToolCallStart(index, id, name) =>
        hide Join;
        assert NamesOf(a.toolCalls + [Call(index, id, name, "")]) == NamesOf(a.toolCalls) + [(id, name)];
      case ToolCallDelta(index, arguments) =>
        hide Join;
        assert NamesOf(Accumulate(a, ev.body).toolCalls) == NamesOf(a.toolCalls);
      case _ =>
        hide Join, NamesOf;
    }
  }

  lemma {:induction false} AggregateReads(a: Agg, events: seq<StreamEvent>)
    ensures Held(ApplyAll(a, events)) == Plus(Held(a), Reads(events))
    decreases |events|
  {
    hide Held, Plus, Apply, BodyReads;
    if events == [] {
      PlusSilent(Held(a));
    } else {
      ApplyReads(a, events[0]);
      AggregateReads(Apply(a, events[0]), events[1..]);
      PlusAssociates(Held(a), BodyReads(events[0].body), Reads(events[1..]));
    }
  }

  lemma FreshReads(events: seq<StreamEvent>)
    ensures Held(ApplyAll(Empty, events)) == Reads(events)
  {
    AggregateReads(Empty, events);
    assert Join([]) == "" && NamesOf([]) == [];
    PlusSilent(Reads(events));
  }

  // ----- what sources lines say besides -----

  /** What a body's sources lines would say if they were decoded. */
  function SourcesSay(lines: seq<Line>): Reading
    decreases |lines|
  {
    if lines == [] || lines[0].DoneMark? then Silent
    else Plus(if IsSources(lines[0]) then Reads(LineEvents(lines[0])) else Silent, SourcesSay(lines[1..]))
  }

  /** `all` is `kept` with `extra` interleaved. */
  predicate Interleaves(all: Reading, kept: Reading, extra: Reading) {
    && |all.text| == |kept.text| + |extra.text| && (extra.text == "" ==> all.text == kept.text)
    && |all.thinking| == |kept.thinking| + |extra.thinking| && (extra.thinking == "" ==> all.thinking == kept.thinking)
    && |all.calls| == |kept.calls| + |extra.calls| && (extra.calls == [] ==> all.calls == kept.calls)
  }

  lemma InterleavesKept(line: Reading, all: Reading, kept: Reading, extra: Reading)
    requires Interleaves(all, kept, extra)
    ensures Interleaves(Plus(line, all), Plus(line, kept), extra)
    ensures Interleaves(Plus(line, all), kept, Plus(line, extra))
  {
  }

  /** All events of a body say what the delivered ones say, with what the sources lines say in between. */
  lemma {:induction false} SourcesInterleave(lines: seq<Line>)
    ensures Interleaves(Reads(AllEvents(lines)), Reads(Delivered(lines)), SourcesSay(lines))
    decreases |lines|
  {
    if lines != [] && !lines[0].DoneMark? {
      var own, rest := LineEvents(lines[0]), lines[1..];
      SourcesInterleave(rest);
      ReadsAppend(own, AllEvents(rest));
      ReadsAppend(own, Delivered(rest));
      InterleavesKept(Reads(own), Reads(AllEvents(rest)), Reads(Delivered(rest)), SourcesSay(rest));
      PlusSilent(SourcesSay(rest));
      Unit(Delivered(rest));
      hide Interleaves, Reads, Plus, IsSources, LineEvents;
    }
  }

  /** Sources lines that carry nothing say nothing. */
  lemma {:induction false} QuietSources(lines: seq<Line>)
    requires SourcesOnly(lines)
    ensures AllEvents(lines) == Delivered(lines) && SourcesSay(lines) == Silent
    decreases |lines|
  {
    if lines != [] && !lines[0].DoneMark? {
      assert lines[0] in lines && SourcesOnly(lines[1..]);
      assert Reads([]) == Silent;
      hide SourcesOnly, IsSources, LineEvents;
      QuietSources(lines[1..]);
      PlusSilent(Silent);
    }
  }
}
