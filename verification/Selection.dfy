/** Choosing and ranking the providers of a request (server/provider.go). */
module Selection {
  import opened Wrappers
  import opened Overrides
  import opened Config

  /** `provider` is the position in the configuration. */
  datatype ProviderSelection = ProviderSelection(
    provider: nat, upstreamModel: string, forceStream: bool, override: OverrideParams)

  /** The positions of the providers that serve the model, in configuration order. */
  function Candidates(providers: seq<Provider>, model: string): seq<nat> {
    if providers == [] then []
    else
      var n := |providers| - 1;
      Candidates(providers[..n], model) + if Serves(providers[n], model) then [n] else []
  }

  lemma {:induction false} CandidatesServe(providers: seq<Provider>, model: string)
    ensures forall i :: i in Candidates(providers, model) <==> 0 <= i < |providers| && Serves(providers[i], model)
  {
    if providers != [] {
      var n := |providers| - 1;
      CandidatesServe(providers[..n], model);
      assert forall i :: 0 <= i < n ==> providers[..n][i] == providers[i];
    }
  }

  ghost predicate InRange(order: seq<nat>, providers: seq<Provider>) {
    forall k :: 0 <= k < |order| ==> order[k] < |providers|
  }

  ghost predicate Descending(order: seq<nat>, providers: seq<Provider>)
    requires InRange(order, providers)
  {
    forall i, j :: 0 <= i < j < |order| ==> providers[order[i]].priority >= providers[order[j]].priority
  }

  /** One possible outcome of the unstable sort. */
  ghost predicate IsRanking(order: seq<nat>, providers: seq<Provider>, model: string) {
    && multiset(order) == multiset(Candidates(providers, model))
    && InRange(order, providers)
    && Descending(order, providers)
  }

  /** Everything already ranked is at least as high as everything left. */
  ghost predicate Dominates(order: seq<nat>, left: seq<nat>, providers: seq<Provider>)
    requires InRange(order, providers) && InRange(left, providers)
  {
    forall i, k :: 0 <= i < |order| && 0 <= k < |left| ==> providers[order[i]].priority >= providers[left[k]].priority
  }

  function Without(left: seq<nat>, top: nat): seq<nat>
    requires top < |left|
  {
    left[..top] + left[top + 1..]
  }

  lemma TakeTop(order: seq<nat>, left: seq<nat>, top: nat, providers: seq<Provider>)
    requires InRange(order, providers) && InRange(left, providers) && top < |left|
    requires Descending(order, providers) && Dominates(order, left, providers)
    requires forall k :: 0 <= k < |left| ==> providers[left[top]].priority >= providers[left[k]].priority
    ensures var order', left' := order + [left[top]], Without(left, top);
            && InRange(order', providers) && InRange(left', providers)
            && Descending(order', providers) && Dominates(order', left', providers)
            && multiset(order') + multiset(left') == multiset(order) + multiset(left)
  {
    assert left == left[..top] + [left[top]] + left[top + 1..];
    var left' := Without(left, top);
    assert forall k :: 0 <= k < |left'| ==> left'[k] == if k < top then left[k] else left[k + 1];
  }

  /** `sort.Slice`: any descending permutation may result, equal priorities in any order. */
  method SortByPriority(candidates: seq<nat>, providers: seq<Provider>) returns (order: seq<nat>)
    requires InRange(candidates, providers)
    ensures multiset(order) == multiset(candidates)
    ensures InRange(order, providers) && Descending(order, providers)
  {
    order := [];
    var left := candidates;
    while left != []
      invariant InRange(order, providers) && InRange(left, providers)
      invariant Descending(order, providers) && Dominates(order, left, providers)
      invariant multiset(order) + multiset(left) == multiset(candidates)
      decreases |left|
    {
      var top := PickTop(left, providers);
      TakeTop(order, left, top, providers);
      order, left := order + [left[top]], Without(left, top);
    }
  }

  /** Some candidate of highest priority; which of several is left open. */
  method PickTop(left: seq<nat>, providers: seq<Provider>) returns (top: nat)
    requires left != [] && InRange(left, providers)
    ensures top < |left|
    ensures forall k :: 0 <= k < |left| ==> providers[left[top]].priority >= providers[left[k]].priority
  {
    top := 0;
    for i := 1 to |left|
      invariant top < i
      invariant forall k :: 0 <= k < i ==> providers[left[top]].priority >= providers[left[k]].priority
    {
      var takeLater := *;
      if providers[left[i]].priority > providers[left[top]].priority ||
         (takeLater && providers[left[i]].priority == providers[left[top]].priority) {
        top := i;
      }
    }
  }

  function Positions(selections: seq<ProviderSelection>): seq<nat> {
    seq(|selections|, i requires 0 <= i < |selections| => selections[i].provider)
  }

  /** The selection made for the provider at position `i`. */
  function SelectionFor(providers: seq<Provider>, i: nat, model: string, stream: bool): ProviderSelection
    requires i < |providers| && Serves(providers[i], model)
  {
    var p := providers[i];
    ProviderSelection(i, p.models[model].upstream, p.forceStream, MergeAll(InForce(model, stream, p.override)))
  }

  predicate Selects(providers: seq<Provider>, model: string, stream: bool, s: ProviderSelection) {
    && s.provider < |providers| && Serves(providers[s.provider], model)
    && s == SelectionFor(providers, s.provider, model, stream)
  }

  method SelectAll(providers: seq<Provider>, model: string, stream: bool)
      returns (r: Result<seq<ProviderSelection>, string>)
    ensures r.Ok? <==> Served(providers, model)
    ensures r.Ok? ==> IsRanking(Positions(r.value), providers, model)
    ensures r.Ok? ==> forall i :: 0 <= i < |r.value| ==> Selects(providers, model, stream, r.value[i])
  {
    var candidates := CollectCandidates(providers, model);
    CandidatesAreServed(providers, model);
    if |candidates| == 0 {
      return Err("no provider supports model");
    }
    hide Candidates, Serves, Selects;
    var order := SortByPriority(candidates, providers);
    SameMembers(order, candidates);
    var selections := BuildSelections(providers, order, model, stream);
    r := Ok(selections);
  }

  method CollectCandidates(providers: seq<Provider>, model: string) returns (candidates: seq<nat>)
    ensures candidates == Candidates(providers, model)
  {
    candidates := [];
    for i := 0 to |providers|
      invariant candidates == Candidates(providers[..i], model)
    {
      assert providers[..i + 1][..i] == providers[..i];
      if model in providers[i].models {
        candidates := candidates + [i];
      }
    }
    assert providers[..|providers|] == providers;
  }

  lemma CandidatesAreServed(providers: seq<Provider>, model: string)
    ensures Candidates(providers, model) != [] <==> Served(providers, model)
    ensures InRange(Candidates(providers, model), providers)
    ensures forall k :: 0 <= k < |Candidates(providers, model)| ==>
              Candidates(providers, model)[k] < |providers| && Serves(providers[Candidates(providers, model)[k]], model)
  {
  }

  lemma SameMembers(a: seq<nat>, b: seq<nat>)
    requires multiset(a) == multiset(b)
    ensures forall k :: 0 <= k < |a| ==> a[k] in b
  {
    forall k | 0 <= k < |a| ensures a[k] in b {
      assert a[k] in multiset(a);
    }
  }

  method BuildSelections(providers: seq<Provider>, order: seq<nat>, model: string, stream: bool)
    returns (selections: seq<ProviderSelection>)
    requires forall k :: 0 <= k < |order| ==> order[k] < |providers| && Serves(providers[order[k]], model)
    ensures Positions(selections) == order
    ensures forall i :: 0 <= i < |selections| ==> Selects(providers, model, stream, selections[i])
  {
    selections := [];
    for k := 0 to |order|
      invariant Positions(selections) == order[..k]
      invariant forall i :: 0 <= i < |selections| ==> Selects(providers, model, stream, selections[i])
    {
      var p := providers[order[k]];
      var resolved := ResolveOverride(model, stream, p.override);
      selections := selections + [ProviderSelection(order[k], p.models[model].upstream, p.forceStream, resolved)];
    }
  }

  /**
    Under any outcome of the sort, the first selection of a validated configuration
    is the one provider of maximum priority; every provider of the model is ranked.
   */
  lemma PrimaryHeadsSelection(cfg: Config, normalize: string -> string, model: string, order: seq<nat>)
    requires Valid(cfg, normalize) && Served(cfg.providers, model)
    requires IsRanking(order, cfg.providers, model)
    ensures order != [] && IsTop(cfg.providers, model, order[0])
    ensures forall i :: 0 <= i < |cfg.providers| && Serves(cfg.providers[i], model) <==> i in order
  {
    CandidatesServe(cfg.providers, model);
    PrimaryIsUnique(cfg, normalize, model);
    var top :| IsTop(cfg.providers, model, top);
    assert forall i :: i in order <==> i in multiset(order);
    assert forall i :: i in Candidates(cfg.providers, model) <==> i in multiset(Candidates(cfg.providers, model));
    assert top in order;
    var k :| 0 <= k < |order| && order[k] == top;
    assert k > 0 ==> cfg.providers[order[0]].priority >= cfg.providers[order[k]].priority;
  }
}
