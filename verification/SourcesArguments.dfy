/**
  What tool deltas on sources lines do to the calls of a reader that decodes those
  lines: as long as they start no call, they can only lengthen the calls that others
  started, and leave every argument string alone exactly when none reaches such a call.
 */
module SourcesArguments {
  import opened Wrappers
  import opened Types
  import opened OpenAIStream
  import opened Aggregate
  import opened Agreement
  import opened Reading

  function StartedAll(started: set<int>, events: seq<StreamEvent>): set<int>
    decreases |events|
  {
    if events == [] then started else StartedAll(StartedAfter(started, events[0].body), events[1..])
  }

  /** The event adds to the arguments of a started call. */
  predicate Adds(body: EventBody, started: set<int>) {
    body.ToolCallDelta? && body.index in started && body.arguments != ""
  }

  predicate NoneAdds(events: seq<StreamEvent>, started: set<int>) {
    forall ev :: ev in events ==> !Adds(ev.body, started)
  }

  /** No delta on a sources line names a call that another line started before. */
  predicate SourcesAddNothing(lines: seq<Line>, started: set<int>)
    decreases |lines|
  {
    lines != [] && !lines[0].DoneMark? ==>
      var own := LineEvents(lines[0]);
      if IsSources(lines[0]) then NoneAdds(own, started) && SourcesAddNothing(lines[1..], started)
      else SourcesAddNothing(lines[1..], StartedAll(started, own))
  }

  predicate StartsNone(events: seq<StreamEvent>) {
    forall ev :: ev in events ==> !ev.body.ToolCallStart?
  }

  lemma {:induction false} NoNamesNoStart(events: seq<StreamEvent>)
    requires Reads(events).calls == []
    ensures StartsNone(events)
    decreases |events|
  {
    if events != [] {
      NoNamesNoStart(events[1..]);
    }
  }

  /** The same calls, none with less to it; with `same`, nothing was added, otherwise something. */
  ghost predicate Grown(kept: seq<Call>, all: seq<Call>, same: bool) {
    && |kept| == |all|
    && (forall i :: 0 <= i < |all| ==>
          && kept[i].index == all[i].index && kept[i].id == all[i].id && kept[i].name == all[i].name
          && |kept[i].arguments| <= |all[i].arguments|)
    && (if same then kept == all else exists i :: 0 <= i < |all| && |kept[i].arguments| < |all[i].arguments|)
  }

  lemma {:induction false} SamePlace(a: seq<Call>, b: seq<Call>, index: int)
    requires |a| == |b| && forall i :: 0 <= i < |a| ==> a[i].index == b[i].index
    ensures LastWith(a, index) == LastWith(b, index)
  {
    if a != [] {
      var n := |a| - 1;
      SamePlace(a[..n], b[..n], index);
    }
  }

  lemma BothApply(k: Agg, a: Agg, ev: StreamEvent, same: bool)
    requires Grown(k.toolCalls, a.toolCalls, same)
    ensures Grown(Apply(k, ev).toolCalls, Apply(a, ev).toolCalls, same)
  {
    var body := ev.body;
    if body.ToolCallStart? {
      BothStart(k.toolCalls, a.toolCalls, Call(body.index, body.callId, body.name, ""), same);
    } else if body.ToolCallDelta? {
      SamePlace(k.toolCalls, a.toolCalls, body.index);
      var i := LastWith(a.toolCalls, body.index);
      if i >= 0 {
        BothAdd(k.toolCalls, a.toolCalls, i, body.arguments, same);
      }
    }
    hide LastWith, Grown;
  }

  lemma BothStart(k: seq<Call>, a: seq<Call>, c: Call, same: bool)
    requires Grown(k, a, same)
    ensures Grown(k + [c], a + [c], same)
  {
    if !same {
      var i :| 0 <= i < |a| && |k[i].arguments| < |a[i].arguments|;
      assert (k + [c])[i] == k[i] && (a + [c])[i] == a[i];
    }
  }

  function Added(calls: seq<Call>, i: nat, arguments: string): seq<Call>
    requires i < |calls|
  {
    calls[i := calls[i].(arguments := calls[i].arguments + arguments)]
  }

  lemma BothAdd(k: seq<Call>, a: seq<Call>, i: nat, arguments: string, same: bool)
    requires Grown(k, a, same) && i < |a|
    ensures Grown(Added(k, i, arguments), Added(a, i, arguments), same)
  {
    var k', a' := Added(k, i, arguments), Added(a, i, arguments);
    if !same {
      var j :| 0 <= j < |a| && |k[j].arguments| < |a[j].arguments|;
      assert |a'[j].arguments| - |k'[j].arguments| == |a[j].arguments| - |k[j].arguments|;
    }
  }

  lemma OneApplies(k: Agg, a: Agg, ev: StreamEvent, same: bool, started: set<int>)
    requires Grown(k.toolCalls, a.toolCalls, same) && StartedIs(started, a) && !ev.body.ToolCallStart?
    ensures Grown(k.toolCalls, Apply(a, ev).toolCalls, same && !Adds(ev.body, started))
    ensures StartedIs(started, Apply(a, ev))
  {
    StartedStep(started, a, ev);
    hide LastWith;
    if ev.body.ToolCallDelta? {
      var i := LastWith(a.toolCalls, ev.body.index);
      if i >= 0 {
        var a' := Apply(a, ev).toolCalls;
        assert a'[i].arguments == a.toolCalls[i].arguments + ev.body.arguments;
        Unit(a.toolCalls[i].arguments);
        assert ev.body.arguments == "" ==> a' == a.toolCalls;
        assert forall j :: 0 <= j < |a'| ==> |a.toolCalls[j].arguments| <= |a'[j].arguments|;
      }
    }
  }

  lemma {:induction false} BothApplyAll(k: Agg, a: Agg, events: seq<StreamEvent>, same: bool, started: set<int>)
    requires Grown(k.toolCalls, a.toolCalls, same) && StartedIs(started, a)
    ensures Grown(ApplyAll(k, events).toolCalls, ApplyAll(a, events).toolCalls, same)
    ensures StartedIs(StartedAll(started, events), ApplyAll(a, events))
    decreases |events|
  {
    hide Apply, Grown, StartedIs, StartedAfter;
    if events != [] {
      BothApply(k, a, events[0], same);
      StartedStep(started, a, events[0]);
      BothApplyAll(Apply(k, events[0]), Apply(a, events[0]), events[1..], same, StartedAfter(started, events[0].body));
    }
  }

  lemma {:induction false} OneAppliesAll(k: Agg, a: Agg, events: seq<StreamEvent>, same: bool, started: set<int>)
    requires Grown(k.toolCalls, a.toolCalls, same) && StartedIs(started, a) && StartsNone(events)
    ensures Grown(k.toolCalls, ApplyAll(a, events).toolCalls, same && NoneAdds(events, started))
    ensures StartedIs(started, ApplyAll(a, events))
    decreases |events|
  {
    hide Apply, Grown, StartedIs, Adds;
    if events != [] {
      var head, rest := events[0], events[1..];
      assert head in events && forall ev :: ev in events <==> ev == head || ev in rest;
      OneApplies(k, a, head, same, started);
      OneAppliesAll(k, Apply(a, head), rest, same && !Adds(head.body, started), started);
      assert NoneAdds(events, started) <==> !Adds(head.body, started) && NoneAdds(rest, started);
    }
  }

  lemma {:induction false} LinesGrow(k: Agg, a: Agg, lines: seq<Line>, same: bool, started: set<int>)
    requires Grown(k.toolCalls, a.toolCalls, same) && StartedIs(started, a) && SourcesSay(lines).calls == []
    ensures Grown(ApplyAll(k, Delivered(lines)).toolCalls, ApplyAll(a, AllEvents(lines)).toolCalls,
                  same && SourcesAddNothing(lines, started))
    decreases |lines|
  {
    hide Apply, Grown, StartedIs, NoneAdds, StartsNone, IsSources, LineEvents, Reads, StartedAll;
    if lines != [] && !lines[0].DoneMark? {
      var own, rest := LineEvents(lines[0]), lines[1..];
      ApplyAllAppend(a, own, AllEvents(rest));
      if IsSources(lines[0]) {
        NoNamesNoStart(own);
        OneAppliesAll(k, a, own, same, started);
        Unit(Delivered(rest));
        LinesGrow(k, ApplyAll(a, own), rest, same && NoneAdds(own, started), started);
      } else {
        ApplyAllAppend(k, own, Delivered(rest));
        BothApplyAll(k, a, own, same, started);
        LinesGrow(ApplyAll(k, own), ApplyAll(a, own), rest, same, StartedAll(started, own));
      }
    }
  }

  /**
    When a body's sources lines start no call, a reader that decodes them holds the same
    calls as one that does not, with arguments that are nowhere shorter, and the same
    exactly when no sources line adds to a started call.
   */
  lemma SourcesOnlyAdd(lines: seq<Line>)
    requires SourcesSay(lines).calls == []
    ensures Grown(ApplyAll(Empty, Delivered(lines)).toolCalls, ApplyAll(Empty, AllEvents(lines)).toolCalls,
                  SourcesAddNothing(lines, {}))
  {
    LinesGrow(Empty, Empty, lines, true, {});
  }
}
