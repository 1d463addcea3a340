/**
  Provider overrides (server/provider.go): merging rules, and applying the result
  to request parameters whose reasoning settings live behind a pointer.
 */
module Overrides {
  import opened Wrappers
  import opened JsonValues
  import opened Parameters

  datatype OverrideParams = OverrideParams(
    maxTokens: Option<int>, temperature: Option<real>, topP: Option<real>,
    stop: seq<string>, reasoningEffort: Option<string>)

  const NoOverride := OverrideParams(None, None, None, [], None)

  datatype Target = Target(clientModel: Option<string>, stream: Option<bool>)

  datatype Rule = Rule(target: Target, params: OverrideParams)

  datatype ProviderOverride = ProviderOverride(defaults: Option<OverrideParams>, rules: seq<Rule>)

  // ----- merging -----

  function Merge(dst: OverrideParams, src: OverrideParams): OverrideParams {
    OverrideParams(Newer(src.maxTokens, dst.maxTokens), Newer(src.temperature, dst.temperature),
                   Newer(src.topP, dst.topP),
                   if |src.stop| > 0 then src.stop else dst.stop,
                   Newer(src.reasoningEffort, dst.reasoningEffort))
  }

  predicate Matches(clientModel: string, stream: bool, target: Target) {
    && (target.clientModel.Some? ==> clientModel == target.clientModel.value)
    && (target.stream.Some? ==> stream == target.stream.value)
  }

  /** The defaults, if any, then the parameters of every matching rule in order. */
  function InForce(clientModel: string, stream: bool, o: ProviderOverride): seq<OverrideParams> {
    (if o.defaults.Some? then [o.defaults.value] else []) + MatchingRules(clientModel, stream, o.rules)
  }

  function MatchingRules(clientModel: string, stream: bool, rules: seq<Rule>): seq<OverrideParams> {
    if rules == [] then []
    else
      var r := rules[|rules| - 1];
      MatchingRules(clientModel, stream, rules[..|rules| - 1]) +
          if Matches(clientModel, stream, r.target) then [r.params] else []
  }

  function MergeAll(overrides: seq<OverrideParams>): OverrideParams {
    if overrides == [] then NoOverride else Merge(MergeAll(overrides[..|overrides| - 1]), overrides[|overrides| - 1])
  }

  lemma MergeAllSnoc(overrides: seq<OverrideParams>, o: OverrideParams)
    ensures MergeAll(overrides + [o]) == Merge(MergeAll(overrides), o)
  {
  }

  method MergeOverrideParams(dst: OverrideParams, src: OverrideParams) returns (merged: OverrideParams)
    ensures merged == Merge(dst, src)
  {
    merged := dst;
    if src.maxTokens.Some? { merged := merged.(maxTokens := src.maxTokens); }
    if src.temperature.Some? { merged := merged.(temperature := src.temperature); }
    if src.topP.Some? { merged := merged.(topP := src.topP); }
    if |src.stop| > 0 { merged := merged.(stop := src.stop); }
    if src.reasoningEffort.Some? { merged := merged.(reasoningEffort := src.reasoningEffort); }
  }

  method ResolveOverride(clientModel: string, stream: bool, o: ProviderOverride) returns (resolved: OverrideParams)
    ensures resolved == MergeAll(InForce(clientModel, stream, o))
  {
    resolved := NoOverride;
    ghost var head: seq<OverrideParams> := [];
    if o.defaults.Some? {
      MergeAllSnoc([], o.defaults.value);
      Unit([o.defaults.value]);
      resolved := MergeOverrideParams(resolved, o.defaults.value);
      head := [o.defaults.value];
    }
    Unit(head);
    for i := 0 to |o.rules|
      invariant resolved == MergeAll(head + MatchingRules(clientModel, stream, o.rules[..i]))
    {
      var rule := o.rules[i];
      RuleSnoc(clientModel, stream, o.rules, i, head);
      if Matches(clientModel, stream, rule.target) {
        resolved := MergeOverrideParams(resolved, rule.params);
      }
    }
    assert o.rules[..|o.rules|] == o.rules;
  }

  lemma RuleSnoc(clientModel: string, stream: bool, rules: seq<Rule>, i: nat, head: seq<OverrideParams>)
    requires i < |rules|
    ensures var before, after := MergeAll(head + MatchingRules(clientModel, stream, rules[..i])),
                                 MergeAll(head + MatchingRules(clientModel, stream, rules[..i + 1]));
            after == if Matches(clientModel, stream, rules[i].target) then Merge(before, rules[i].params) else before
  {
    var before := MatchingRules(clientModel, stream, rules[..i]);
    assert rules[..i + 1][..i] == rules[..i];
    hide Merge, Matches, MergeAll;
    if Matches(clientModel, stream, rules[i].target) {
      MergeAllSnoc(head + before, rules[i].params);
      Associate(head, before, [rules[i].params]);
    } else {
      Unit(before);
    }
  }

  // ----- request parameters, as values -----

  function ApplyTo(p: ParamsValue, o: OverrideParams): ParamsValue {
    ParamsValue(Newer(o.maxTokens, p.maxTokens), Newer(o.temperature, p.temperature), Newer(o.topP, p.topP),
                if |o.stop| > 0 then o.stop else p.stop,
                if o.reasoningEffort.None? then p.reasoning
                else Some(ReasoningValue(if p.reasoning.Some? then p.reasoning.value.mode else "", o.reasoningEffort)),
                p.format)
  }

  /** Applying the overrides one after the other. */
  function ApplySequence(p: ParamsValue, overrides: seq<OverrideParams>): ParamsValue {
    if overrides == [] then p else ApplyTo(ApplySequence(p, overrides[..|overrides| - 1]), overrides[|overrides| - 1])
  }

  // ----- overrides form an action -----

  lemma MergeIsMonoid(a: OverrideParams, b: OverrideParams, c: OverrideParams)
    ensures Merge(Merge(a, b), c) == Merge(a, Merge(b, c))
    ensures Merge(NoOverride, a) == a && Merge(a, NoOverride) == a
  {
  }

  lemma MergeThenApply(p: ParamsValue, a: OverrideParams, b: OverrideParams)
    ensures ApplyTo(p, Merge(a, b)) == ApplyTo(ApplyTo(p, a), b)
    ensures ApplyTo(p, NoOverride) == p
  {
  }

  /** Applying the merged overrides equals applying them in sequence. */
  lemma {:induction false} MergedEqualsSequence(p: ParamsValue, overrides: seq<OverrideParams>)
    ensures ApplyTo(p, MergeAll(overrides)) == ApplySequence(p, overrides)
  {
    if overrides == [] {
      MergeThenApply(p, NoOverride, NoOverride);
    } else {
      var n := |overrides| - 1;
      MergedEqualsSequence(p, overrides[..n]);
      MergeThenApply(p, MergeAll(overrides[..n]), overrides[n]);
    }
  }

  /** Position of the last override satisfying `sets`, or -1. */
  function LastSetting(overrides: seq<OverrideParams>, sets: OverrideParams -> bool): (i: int)
    ensures -1 <= i < |overrides|
    ensures i >= 0 ==> sets(overrides[i])
    ensures forall k :: i < k < |overrides| ==> !sets(overrides[k])
  {
    if overrides == [] then -1
    else if sets(overrides[|overrides| - 1]) then |overrides| - 1
    else LastSetting(overrides[..|overrides| - 1], sets)
  }

  /**
    After the resolved override, each field has the value of the last override in
    force that sets it, and the client's own value if none does; the reasoning mode
    and the response format are never changed.
   */
  lemma {:induction false} LastOneWins(p: ParamsValue, overrides: seq<OverrideParams>)
    ensures var q := ApplyTo(p, MergeAll(overrides));
            var m, t, u, s, e := LastSetting(overrides, (o: OverrideParams) => o.maxTokens.Some?),
                                 LastSetting(overrides, (o: OverrideParams) => o.temperature.Some?),
                                 LastSetting(overrides, (o: OverrideParams) => o.topP.Some?),
                                 LastSetting(overrides, (o: OverrideParams) => |o.stop| > 0),
                                 LastSetting(overrides, (o: OverrideParams) => o.reasoningEffort.Some?);
            && q.maxTokens == (if m >= 0 then overrides[m].maxTokens else p.maxTokens)
            && q.temperature == (if t >= 0 then overrides[t].temperature else p.temperature)
            && q.topP == (if u >= 0 then overrides[u].topP else p.topP)
            && q.stop == (if s >= 0 then overrides[s].stop else p.stop)
            && q.format == p.format
            && (e < 0 ==> q.reasoning == p.reasoning)
            && (e >= 0 ==> q.reasoning.Some? && q.reasoning.value.effort == overrides[e].reasoningEffort
                           && q.reasoning.value.mode == if p.reasoning.Some? then p.reasoning.value.mode else "")
  {
    if overrides != [] {
      var n := |overrides| - 1;
      assert MergeAll(overrides) == Merge(MergeAll(overrides[..n]), overrides[n]);
      hide MergeAll, Merge;
      LastOneWins(p, overrides[..n]);
      MergeThenApply(p, MergeAll(overrides[..n]), overrides[n]);
      Applied(ApplyTo(p, MergeAll(overrides[..n])), overrides[n]);
      hide ApplyTo;
      LastSnoc(overrides, (o: OverrideParams) => o.maxTokens.Some?);
      LastSnoc(overrides, (o: OverrideParams) => o.temperature.Some?);
      LastSnoc(overrides, (o: OverrideParams) => o.topP.Some?);
      LastSnoc(overrides, (o: OverrideParams) => |o.stop| > 0);
      LastSnoc(overrides, (o: OverrideParams) => o.reasoningEffort.Some?);
      hide LastSetting;
    }
  }

  lemma LastSnoc(overrides: seq<OverrideParams>, sets: OverrideParams -> bool)
    requires overrides != []
    ensures var n := |overrides| - 1;
            && LastSetting(overrides, sets) == (if sets(overrides[n]) then n else LastSetting(overrides[..n], sets))
            && (LastSetting(overrides[..n], sets) >= 0 ==>
                  overrides[..n][LastSetting(overrides[..n], sets)] == overrides[LastSetting(overrides[..n], sets)])
  {
  }

  lemma Applied(p: ParamsValue, o: OverrideParams)
    ensures var q := ApplyTo(p, o);
            && q.maxTokens == (if o.maxTokens.Some? then o.maxTokens else p.maxTokens)
            && q.temperature == (if o.temperature.Some? then o.temperature else p.temperature)
            && q.topP == (if o.topP.Some? then o.topP else p.topP)
            && q.stop == (if |o.stop| > 0 then o.stop else p.stop)
            && q.format == p.format
            && (o.reasoningEffort.None? ==> q.reasoning == p.reasoning)
            && (o.reasoningEffort.Some? ==>
                  && q.reasoning.Some? && q.reasoning.value.effort == o.reasoningEffort
                  && q.reasoning.value.mode == if p.reasoning.Some? then p.reasoning.value.mode else "")
  {
  }

  // ----- request parameters, in the heap -----

  class Reasoning {
    var mode: string
    var effort: Option<string>

    constructor (mode: string, effort: Option<string>)
      ensures this.mode == mode && this.effort == effort
    {
      this.mode, this.effort := mode, effort;
    }
  }

  class ResponseFormat {
    var kind: string
    var name: string
    var schema: Json
    var strict: Option<bool>

    constructor (kind: string, name: string, schema: Json, strict: Option<bool>)
      ensures this.kind == kind && this.name == name && this.schema == schema && this.strict == strict
    {
      this.kind, this.name, this.schema, this.strict := kind, name, schema, strict;
    }
  }

  /** The Go struct: copying it copies the pointers. */
  datatype Params = Params(
    maxTokens: Option<int>, temperature: Option<real>, topP: Option<real>,
    stop: seq<string>, reasoning: Reasoning?, format: ResponseFormat?)

  function Value(p: Params): ParamsValue
    reads p.reasoning, p.format
  {
    ParamsValue(p.maxTokens, p.temperature, p.topP, p.stop,
                if p.reasoning == null then None else Some(ReasoningValue(p.reasoning.mode, p.reasoning.effort)),
                if p.format == null then None
                else Some(FormatValue(p.format.kind, p.format.name, p.format.schema, p.format.strict)))
  }

  method Clone(p: Params) returns (copy: Params)
    ensures Value(copy) == Value(p)
    ensures copy.reasoning != null ==> fresh(copy.reasoning)
    ensures copy.format != null ==> fresh(copy.format)
  {
    copy := p;
    if p.reasoning != null {
      var r := new Reasoning(p.reasoning.mode, p.reasoning.effort);
      copy := copy.(reasoning := r);
    }
    if p.format != null {
      var f := new ResponseFormat(p.format.kind, p.format.name, p.format.schema, p.format.strict);
      copy := copy.(format := f);
    }
  }

  /** The part of a request the handlers rewrite for every provider. */
  class RequestState {
    var params: Params

    constructor (params: Params)
      ensures this.params == params
    {
      this.params := params;
    }

    /** Writes into the reasoning object in place when there is one. */
    method ApplyOverride(o: OverrideParams)
      modifies this, params.reasoning
      ensures Value(params) == ApplyTo(old(Value(params)), o)
      ensures params.format == old(params.format)
      ensures params.reasoning == old(params.reasoning) || fresh(params.reasoning)
      ensures old(params.reasoning) != null ==> params.reasoning == old(params.reasoning)
    {
      OverrideScalars(o);
      if o.reasoningEffort.Some? {
        if params.reasoning == null {
          var r := new Reasoning("", None);
          params := params.(reasoning := r);
        }
        params.reasoning.effort := o.reasoningEffort;
      }
    }

    method OverrideScalars(o: OverrideParams)
      modifies this
      ensures params == old(params).(maxTokens := Newer(o.maxTokens, old(params).maxTokens),
                                     temperature := Newer(o.temperature, old(params).temperature),
                                     topP := Newer(o.topP, old(params).topP),
                                     stop := if |o.stop| > 0 then o.stop else old(params).stop)
    {
      if o.maxTokens.Some? { params := params.(maxTokens := o.maxTokens); }
      if o.temperature.Some? { params := params.(temperature := o.temperature); }
      if o.topP.Some? { params := params.(topP := o.topP); }
      if |o.stop| > 0 { params := params.(stop := o.stop); }
    }

    /** Without the clone the write reaches every copy of the struct: the pointer is shared. */
    method ApplyToSharedCopy(o: OverrideParams) returns (copy: Params)
      requires params.reasoning != null && o.reasoningEffort.Some?
      modifies this, params.reasoning
      ensures copy == old(params)
      ensures Value(copy).reasoning == Some(ReasoningValue(old(params.reasoning.mode), o.reasoningEffort))
    {
      copy := params;
      ApplyOverride(o);
      assert Value(params).reasoning == Value(copy).reasoning;
    }
  }
}
