/**
  The accumulator of execute/aggregate.go, which folds stream events into one
  response: an object whose tool calls are themselves mutable objects, and the
  fold it refines.
 */
module Aggregate {
  import opened Wrappers
  import opened JsonValues
  import opened Types

  datatype Call = Call(index: int, id: string, name: string, arguments: string)

  datatype Agg = Agg(
    responseID: string,
    model: string,
    textParts: seq<string>,
    thinkingParts: seq<string>,
    toolCalls: seq<Call>,
    stopReason: string,
    usage: Option<Usage>)

  const Empty := Agg("", "", [], [], [], "", None)

  /** Position of the latest call with this index, or -1. */
  function LastWith(calls: seq<Call>, index: int): (r: int)
    ensures -1 <= r < |calls|
    ensures r >= 0 ==> calls[r].index == index
    ensures forall k :: r < k < |calls| ==> calls[k].index != index
  {
    if calls == [] then -1
    else if calls[|calls| - 1].index == index then |calls| - 1
    else LastWith(calls[..|calls| - 1], index)
  }

  function MergeUsage(current: Option<Usage>, update: Usage): Usage {
    var c := if current.Some? then current.value else Usage(None, None, None, None, None, None);
    Usage(Newer(update.input, c.input), Newer(update.output, c.output), Newer(update.total, c.total),
          Newer(update.reasoning, c.reasoning), Newer(update.cacheRead, c.cacheRead),
          Newer(update.cacheWrite, c.cacheWrite))
  }

  function Identify(a: Agg, ev: StreamEvent): Agg {
    a.(responseID := if ev.responseID != "" && a.responseID == "" then ev.responseID else a.responseID,
       model := if ev.model != "" && a.model == "" then ev.model else a.model)
  }

  function Accumulate(a: Agg, body: EventBody): Agg {
    match body
    case TextDelta(text) => if text == "" then a else a.(textParts := a.textParts + [text])
    case ThinkingDelta(text) => a.(thinkingParts := a.thinkingParts + [text])
    case ToolCallStart(index, id, name) => a.(toolCalls := a.toolCalls + [Call(index, id, name, "")])
    case ToolCallDelta(index, arguments) =>
      var i := LastWith(a.toolCalls, index);
      if i < 0 then a
      else a.(toolCalls := a.toolCalls[i := a.toolCalls[i].(arguments := a.toolCalls[i].arguments + arguments)])
    case MessageStop(reason) => a.(stopReason := reason)
    case UsageFinal(Some(u)) => a.(usage := Some(MergeUsage(a.usage, u)))
    case _ => a
  }

  function Apply(a: Agg, ev: StreamEvent): Agg {
    Accumulate(Identify(a, ev), ev.body)
  }

  function ApplyAll(a: Agg, events: seq<StreamEvent>): Agg
    decreases |events|
  {
    if events == [] then a else ApplyAll(Apply(a, events[0]), events[1..])
  }

  lemma ApplyAllAppend(a: Agg, x: seq<StreamEvent>, y: seq<StreamEvent>)
    ensures ApplyAll(a, x + y) == ApplyAll(ApplyAll(a, x), y)
    decreases |x|
  {
    hide Apply;
    if x == [] {
      Unit(y);
    } else {
      assert (x + y)[1..] == x[1..] + y;
      ApplyAllAppend(Apply(a, x[0]), x[1..], y);
    }
  }

  lemma ApplyAllSnoc(a: Agg, events: seq<StreamEvent>, ev: StreamEvent)
    ensures ApplyAll(a, events + [ev]) == Apply(ApplyAll(a, events), ev)
    decreases |events|
  {
    if events == [] {
      assert ApplyAll(a, [ev]) == ApplyAll(Apply(a, ev), []);
    } else {
      assert (events + [ev])[1..] == events[1..] + [ev];
      ApplyAllSnoc(Apply(a, events[0]), events[1..], ev);
    }
  }

  // ----- the finished response -----

  /** The library's JSON parser, an arbitrary function here; nothing when the text is not JSON. */
  type Parser = string -> Option<Json>

  /** The content blocks `Finalize` builds. */
  datatype Content =
    | Thinking(text: string)
    | Text(text: string)
    | ToolUse(id: string, name: string, arguments: Json)
    | Searched(toolUseId: string, results: seq<WebSearchResult>)

  datatype Response = Response(
    id: string, model: string, content: seq<Content>, stopReason: string, usage: Option<Usage>)

  /** No text, and text that is not JSON, leave the arguments nil. */
  function ArgumentsOf(raw: string, parse: Parser): Json {
    if raw == "" || parse(raw).None? then JNull else parse(raw).value
  }

  function ToolUses(calls: seq<Call>, parse: Parser): seq<Content> {
    seq(|calls|, i requires 0 <= i < |calls| =>
      ToolUse(calls[i].id, calls[i].name, ArgumentsOf(calls[i].arguments, parse)))
  }

  function FinalContent(a: Agg, parse: Parser): seq<Content> {
    (if |a.thinkingParts| > 0 then [Thinking(Join(a.thinkingParts))] else []) +
    (if |a.textParts| > 0 then [Text(Join(a.textParts))] else []) +
    ToolUses(a.toolCalls, parse)
  }

  function Final(a: Agg, parse: Parser): Response {
    Response(a.responseID, a.model, FinalContent(a, parse), a.stopReason, a.usage)
  }

  // ----- usage merging -----

  /** The last non-nil value of one field over a list of reports. */
  function LastSome<T>(values: seq<Option<T>>): Option<T> {
    if values == [] then None
    else if values[|values| - 1].Some? then values[|values| - 1]
    else LastSome(values[..|values| - 1])
  }

  function Reports(events: seq<StreamEvent>): seq<Usage> {
    if events == [] then []
    else
      var e := events[|events| - 1];
      Reports(events[..|events| - 1]) +
      if e.body.UsageFinal? && e.body.usage.Some? then [e.body.usage.value] else []
  }

  function Field<T>(reports: seq<Usage>, get: Usage -> Option<T>): seq<Option<T>> {
    seq(|reports|, i requires 0 <= i < |reports| => get(reports[i]))
  }

  ghost predicate IsMergeOf(usage: Option<Usage>, reports: seq<Usage>) {
    && (usage.None? <==> reports == [])
    && (usage.Some? ==>
          && usage.value.input == LastSome(Field(reports, (u: Usage) => u.input))
          && usage.value.output == LastSome(Field(reports, (u: Usage) => u.output))
          && usage.value.total == LastSome(Field(reports, (u: Usage) => u.total))
          && usage.value.reasoning == LastSome(Field(reports, (u: Usage) => u.reasoning))
          && usage.value.cacheRead == LastSome(Field(reports, (u: Usage) => u.cacheRead))
          && usage.value.cacheWrite == LastSome(Field(reports, (u: Usage) => u.cacheWrite)))
  }

  lemma FieldSnoc<T>(reports: seq<Usage>, u: Usage, get: Usage -> Option<T>)
    ensures LastSome(Field(reports + [u], get)) == Newer(get(u), LastSome(Field(reports, get)))
  {
    assert Field(reports + [u], get)[..|reports|] == Field(reports, get);
  }

  lemma MergeSnoc(usage: Option<Usage>, reports: seq<Usage>, u: Usage)
    requires IsMergeOf(usage, reports)
    ensures IsMergeOf(Some(MergeUsage(usage, u)), reports + [u])
  {
    FieldSnoc(reports, u, (u: Usage) => u.input);
    FieldSnoc(reports, u, (u: Usage) => u.output);
    FieldSnoc(reports, u, (u: Usage) => u.total);
    FieldSnoc(reports, u, (u: Usage) => u.reasoning);
    FieldSnoc(reports, u, (u: Usage) => u.cacheRead);
    FieldSnoc(reports, u, (u: Usage) => u.cacheWrite);
  }

  lemma MergeStep(a: Agg, reports: seq<Usage>, ev: StreamEvent)
    requires IsMergeOf(a.usage, reports)
    ensures IsMergeOf(Apply(a, ev).usage,
                      reports + if ev.body.UsageFinal? && ev.body.usage.Some? then [ev.body.usage.value] else [])
  {
    if ev.body.UsageFinal? && ev.body.usage.Some? {
      MergeSnoc(a.usage, reports, ev.body.usage.value);
    } else {
      assert Apply(a, ev).usage == a.usage && reports + [] == reports;
    }
  }

  /** Over any run, each usage field is the last non-nil value reported for it. */
  lemma {:induction false} UsageIsFieldwiseLast(events: seq<StreamEvent>)
    ensures IsMergeOf(ApplyAll(Empty, events).usage, Reports(events))
  {
    if events == [] {
      assert Reports(events) == [];
    } else {
      var rest, e := events[..|events| - 1], events[|events| - 1];
      UsageIsFieldwiseLast(rest);
      MergeStep(ApplyAll(Empty, rest), Reports(rest), e);
      assert rest + [e] == events;
      ApplyAllSnoc(Empty, rest, e);
    }
  }

  // ----- the accumulator object -----

  class ToolCallState {
    const index: int
    const id: string
    const name: string
    var args: string

    constructor (index: int, id: string, name: string)
      ensures this.index == index && this.id == id && this.name == name && args == ""
    {
      this.index, this.id, this.name, args := index, id, name, "";
    }
  }

  class StreamAggregateState {
    var responseID: string
    var model: string
    var textParts: seq<string>
    var thinkingParts: seq<string>
    var toolCalls: seq<ToolCallState>
    var webSearchResults: seq<WebSearchResult>
    var stopReason: string
    var usage: Option<Usage>

    ghost predicate Valid()
      reads this
    {
      forall i, j :: 0 <= i < j < |toolCalls| ==> toolCalls[i] != toolCalls[j]
    }

    ghost function Calls(): seq<Call>
      reads this, toolCalls
    {
      seq(|toolCalls|, i requires 0 <= i < |toolCalls| reads this, toolCalls =>
        Call(toolCalls[i].index, toolCalls[i].id, toolCalls[i].name, toolCalls[i].args))
    }

    ghost function State(): Agg
      reads this, toolCalls
    {
      Agg(responseID, model, textParts, thinkingParts, Calls(), stopReason, usage)
    }

    constructor ()
      ensures Valid() && State() == Empty && toolCalls == [] && webSearchResults == []
    {
      responseID, model, textParts, thinkingParts, toolCalls := "", "", [], [], [];
      webSearchResults, stopReason, usage := [], "", None;
    }

    method ApplyEvent(event: StreamEvent)
      requires Valid()
      modifies this, toolCalls
      ensures Valid() && State() == Apply(old(State()), event)
      ensures forall i :: 0 <= i < |toolCalls| ==> toolCalls[i] in old(toolCalls) || fresh(toolCalls[i])
      ensures webSearchResults == old(webSearchResults)
    {
      if event.responseID != "" && responseID == "" {
        responseID := event.responseID;
      }
      if event.model != "" && model == "" {
        model := event.model;
      }
      assert Calls() == old(Calls());
      ApplyBody(event.body);
    }

    method ApplyBody(body: EventBody)
      requires Valid()
      modifies this, toolCalls
      ensures Valid() && State() == Accumulate(old(State()), body)
      ensures forall i :: 0 <= i < |toolCalls| ==> toolCalls[i] in old(toolCalls) || fresh(toolCalls[i])
      ensures webSearchResults == old(webSearchResults)
    {
      ghost var before := Calls();
      match body {
        case TextDelta(text) =>
          if text != "" {
            textParts := textParts + [text];
          }
          assert Calls() == before;
        case ThinkingDelta(text) =>
          thinkingParts := thinkingParts + [text];
          assert Calls() == before;
        case ToolCallStart(index, id, name) =>
          var call := new ToolCallState(index, id, name);
          toolCalls := toolCalls + [call];
          assert Calls() == before + [Call(index, id, name, "")];
        case ToolCallDelta(index, arguments) =>
          WriteArguments(index, arguments);
        case ToolCallEnd =>
        case MessageStop(reason) =>
          stopReason := reason;
          assert Calls() == before;
        case UsageFinal(update) =>
          if update.Some? {
            MergeReport(update.value);
          }
          assert Calls() == before;
        case _ =>
      }
    }

    /** The reverse scan: only the latest call with this index is written. */
    method WriteArguments(index: int, arguments: string)
      requires Valid()
      modifies toolCalls
      ensures State() == Accumulate(old(State()), ToolCallDelta(index, arguments))
    {
      var i := |toolCalls| - 1;
      while i >= 0
        invariant -1 <= i < |toolCalls|
        invariant LastWith(Calls(), index) <= i
        invariant Calls() == old(Calls())
      {
        assert Calls()[i].index == toolCalls[i].index;
        if toolCalls[i].index == index {
          toolCalls[i].args := toolCalls[i].args + arguments;
          assert Calls() == old(Calls())[i := old(Calls())[i].(arguments := old(Calls())[i].arguments + arguments)];
          break;
        }
        i := i - 1;
      }
    }

    method MergeReport(update: Usage)
      modifies this`usage
      ensures usage == Some(MergeUsage(old(usage), update))
    {
      if usage.None? {
        usage := Some(Usage(None, None, None, None, None, None));
      }
      var u := usage.value;
      if update.input.Some? { u := u.(input := update.input); }
      if update.output.Some? { u := u.(output := update.output); }
      if update.total.Some? { u := u.(total := update.total); }
      if update.reasoning.Some? { u := u.(reasoning := update.reasoning); }
      if update.cacheRead.Some? { u := u.(cacheRead := update.cacheRead); }
      if update.cacheWrite.Some? { u := u.(cacheWrite := update.cacheWrite); }
      usage := Some(u);
    }

    method SetWebSearchResults(results: seq<WebSearchResult>)
      modifies this`webSearchResults
      ensures webSearchResults == results && State() == old(State())
    {
      webSearchResults := results;
      assert Calls() == old(Calls());
    }

    method Finalize(parse: Parser) returns (response: Response)
      requires Valid()
      ensures response == Final(State(), parse)
    {
      var blocks: seq<Content> := [];
      if |thinkingParts| > 0 {
        blocks := blocks + [Thinking(Join(thinkingParts))];
      }
      if |textParts| > 0 {
        blocks := blocks + [Text(Join(textParts))];
      }
      ghost var head, uses := blocks, ToolUses(Calls(), parse);
      for i := 0 to |toolCalls|
        invariant blocks == head + uses[..i]
      {
        var tc := toolCalls[i];
        var args := JNull;
        if tc.args != "" {
          var parsed := parse(tc.args);
          if parsed.Some? { args := parsed.value; }
        }
        assert uses[..i + 1] == uses[..i] + [ToolUse(tc.id, tc.name, args)];
        blocks := blocks + [ToolUse(tc.id, tc.name, args)];
      }
      assert uses[..|toolCalls|] == uses;
      response := Response(responseID, model, blocks, stopReason, usage);
    }
  }
}
