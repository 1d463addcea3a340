/**
  The configuration of config/config.go and its validation (config/validate.go),
  whose ambiguity check makes the primary provider of every model unique.
 */
module Config {
  import opened Wrappers
  import opened Overrides

  datatype ModelTarget = ModelTarget(upstream: string, allowedEfforts: Option<seq<string>>)

  datatype Provider = Provider(
    name: string, baseURL: string, apiKey: string, priority: int, forceStream: bool,
    models: map<string, ModelTarget>, override: ProviderOverride)

  datatype Token = Token(id: string, key: string)

  datatype Config = Config(
    host: string, port: int, requestDir: string, storagePath: string,
    tokens: seq<Token>, providers: seq<Provider>)

  /** Unicode white space, as `strings.TrimSpace` knows it. */
  predicate IsSpace(c: char) {
    || '\t' <= c <= '\r' || c == ' ' || c == '\U{85}' || c == '\U{A0}' || c == '\U{1680}'
    || '\U{2000}' <= c <= '\U{200A}' || c == '\U{2028}' || c == '\U{2029}' || c == '\U{202F}'
    || c == '\U{205F}' || c == '\U{3000}'
  }

  /** `strings.TrimSpace(s) == ""` */
  predicate IsBlank(s: string) {
    forall c :: c in s ==> IsSpace(c)
  }

  // ----- what validation demands -----

  predicate TokensOk(tokens: seq<Token>) {
    && (forall t :: t in tokens ==> !IsBlank(t.id) && !IsBlank(t.key))
    && forall i, j :: 0 <= i < j < |tokens| ==> tokens[i].id != tokens[j].id
  }

  /** `normalize` stands for trimming and lower-casing an effort name. */
  predicate EffortsOk(efforts: seq<string>, normalize: string -> string) {
    && (forall e :: e in efforts ==> normalize(e) != "")
    && forall i, j :: 0 <= i < j < |efforts| ==> normalize(efforts[i]) != normalize(efforts[j])
  }

  predicate TargetOk(model: string, t: ModelTarget, normalize: string -> string) {
    !IsBlank(model) && !IsBlank(t.upstream) && (t.allowedEfforts.Some? ==> EffortsOk(t.allowedEfforts.value, normalize))
  }

  predicate TargetsOk(models: map<string, ModelTarget>, normalize: string -> string) {
    forall m :: m in models ==> TargetOk(m, models[m], normalize)
  }

  predicate RuleOk(r: Rule) {
    && (r.target.clientModel.Some? || r.target.stream.Some?)
    && (r.target.clientModel.Some? ==> !IsBlank(r.target.clientModel.value))
  }

  predicate ProviderOk(p: Provider, normalize: string -> string) {
    && p.name != "" && p.baseURL != "" && !IsBlank(p.apiKey) && p.models != map[]
    && TargetsOk(p.models, normalize)
    && forall r :: r in p.override.rules ==> RuleOk(r)
  }

  /** The highest priority at which these providers serve the model. */
  function Best(providers: seq<Provider>, model: string): Option<int> {
    if providers == [] then None
    else
      var p, best := providers[|providers| - 1], Best(providers[..|providers| - 1], model);
      if model in p.models && (best.None? || p.priority > best.value) then Some(p.priority) else best
  }

  /** No provider serves a model at the best priority reached before it. */
  predicate Unambiguous(providers: seq<Provider>) {
    forall i, m :: 0 <= i < |providers| && m in providers[i].models ==>
        Best(providers[..i], m) != Some(providers[i].priority)
  }

  predicate Valid(cfg: Config, normalize: string -> string) {
    && cfg.host != "" && 0 < cfg.port <= 65535 && !IsBlank(cfg.requestDir) && cfg.storagePath != ""
    && cfg.tokens != [] && TokensOk(cfg.tokens)
    && cfg.providers != [] && (forall p :: p in cfg.providers ==> ProviderOk(p, normalize))
    && Unambiguous(cfg.providers)
  }

  // ----- the loops -----

  /** Errors carry no text here; what matters is whether there is one. */
  datatype Verdict = Accepted | Rejected

  method Validate(cfg: Config, normalize: string -> string) returns (v: Verdict)
    ensures v == Accepted <==> Valid(cfg, normalize)
  {
    if cfg.host == "" || cfg.port <= 0 || cfg.port > 65535 || IsBlank(cfg.requestDir) || cfg.storagePath == "" {
      return Rejected;
    }
    if |cfg.tokens| == 0 {
      return Rejected;
    }
    var tokens := CheckTokens(cfg.tokens);
    if tokens == Rejected {
      return Rejected;
    }
    if |cfg.providers| == 0 {
      return Rejected;
    }
    hide TokensOk, ProviderOk, Unambiguous, IsBlank;
    v := CheckProviders(cfg.providers, normalize);
  }

  method CheckProviders(providers: seq<Provider>, normalize: string -> string) returns (v: Verdict)
    ensures v == Accepted <==> (forall p :: p in providers ==> ProviderOk(p, normalize)) && Unambiguous(providers)
  {
    hide ProviderOk, Unambiguous, Best;
    var bestPerModel: map<string, int> := map[];
    NoProviders();
    assert providers[..0] == [];
    for i := 0 to |providers|
      invariant forall k :: 0 <= k < i ==> ProviderOk(providers[k], normalize)
      invariant Unambiguous(providers[..i])
      invariant Tracks(bestPerModel, providers[..i])
    {
      var p := providers[i];
      assert p in providers;
      var basics := CheckProvider(p, normalize);
      if basics == Rejected {
        return Rejected;
      }
      var models;
      models, bestPerModel := CheckPriorities(bestPerModel, providers[..i], p);
      OneMoreProvider(providers, i);
      if models == Rejected {
        return Rejected;
      }
      assert providers[..i] + [p] == providers[..i + 1];
    }
    assert providers[..|providers|] == providers;
    v := Accepted;
  }

  lemma NoProviders()
    ensures Unambiguous([]) && Tracks(map[], [])
  {
  }

  ghost predicate Tracks(best: map<string, int>, providers: seq<Provider>) {
    forall m :: Lookup(best, m) == Best(providers, m)
  }

  function Lookup(best: map<string, int>, m: string): Option<int> {
    if m in best then Some(best[m]) else None
  }

  lemma OneMoreProvider(providers: seq<Provider>, i: nat)
    requires i < |providers|
    ensures Unambiguous(providers[..i + 1]) <==>
            Unambiguous(providers[..i]) &&
                forall m :: m in providers[i].models ==> Best(providers[..i], m) != Some(providers[i].priority)
    ensures Unambiguous(providers) ==> Unambiguous(providers[..i + 1])
  {
    var more := providers[..i + 1];
    assert forall k :: 0 <= k <= i ==> more[k] == providers[k] && more[..k] == providers[..k];
    assert forall k :: 0 <= k < i ==> providers[..i][k] == providers[k] && providers[..i][..k] == providers[..k];
  }

  method CheckTokens(tokens: seq<Token>) returns (v: Verdict)
    ensures v == Accepted <==> TokensOk(tokens)
  {
    var seenTokenIDs: set<string> := {};
    for i := 0 to |tokens|
      invariant forall id :: id in seenTokenIDs <==> exists k :: 0 <= k < i && tokens[k].id == id
      invariant forall k :: 0 <= k < i ==> !IsBlank(tokens[k].id) && !IsBlank(tokens[k].key)
      invariant forall j, k :: 0 <= j < k < i ==> tokens[j].id != tokens[k].id
    {
      var t := tokens[i];
      assert t in tokens;
      if IsBlank(t.id) || IsBlank(t.key) {
        return Rejected;
      }
      if t.id in seenTokenIDs {
        return Rejected;
      }
      seenTokenIDs := seenTokenIDs + {t.id};
    }
    v := Accepted;
  }

  method CheckEfforts(efforts: seq<string>, normalize: string -> string) returns (v: Verdict)
    ensures v == Accepted <==> EffortsOk(efforts, normalize)
  {
    var seenEfforts: set<string> := {};
    for i := 0 to |efforts|
      invariant forall e :: e in seenEfforts <==> exists k :: 0 <= k < i && normalize(efforts[k]) == e
      invariant forall k :: 0 <= k < i ==> normalize(efforts[k]) != ""
      invariant forall j, k :: 0 <= j < k < i ==> normalize(efforts[j]) != normalize(efforts[k])
    {
      var normalized := normalize(efforts[i]);
      assert efforts[i] in efforts;
      if normalized == "" || normalized in seenEfforts {
        return Rejected;
      }
      seenEfforts := seenEfforts + {normalized};
    }
    v := Accepted;
  }

  method CheckProvider(p: Provider, normalize: string -> string) returns (v: Verdict)
    ensures v == Accepted <==> ProviderOk(p, normalize)
  {
    hide IsBlank, EffortsOk;
    if p.name == "" || p.baseURL == "" || IsBlank(p.apiKey) || p.models == map[] {
      return Rejected;
    }
    var left := p.models.Keys;
    while left != {}
      invariant left <= p.models.Keys
      invariant forall m :: m in p.models && m !in left ==> TargetOk(m, p.models[m], normalize)
      decreases |left|
    {
      var m :| m in left;
      var t := p.models[m];
      if IsBlank(m) || IsBlank(t.upstream) {
        return Rejected;
      }
      if t.allowedEfforts.Some? {
        var efforts := CheckEfforts(t.allowedEfforts.value, normalize);
        if efforts == Rejected {
          return Rejected;
        }
      }
      left := left - {m};
    }
    for j := 0 to |p.override.rules|
      invariant forall k :: 0 <= k < j ==> RuleOk(p.override.rules[k])
    {
      var r := p.override.rules[j];
      assert r in p.override.rules;
      if r.target.clientModel.None? && r.target.stream.None? {
        return Rejected;
      }
      if r.target.clientModel.Some? && IsBlank(r.target.clientModel.value) {
        return Rejected;
      }
    }
    v := Accepted;
  }

  /** The ambiguity check, over the models of one provider in any order. */
  method CheckPriorities(before: map<string, int>, ghost earlier: seq<Provider>, p: Provider)
    returns (v: Verdict, best: map<string, int>)
    requires Tracks(before, earlier)
    ensures v == Accepted <==> forall m :: m in p.models ==> Best(earlier, m) != Some(p.priority)
    ensures v == Accepted ==> Tracks(best, earlier + [p])
  {
    best := before;
    assert (earlier + [p])[..|earlier|] == earlier;
    var left := p.models.Keys;
    while left != {}
      invariant left <= p.models.Keys
      invariant forall m :: m in p.models && m !in left ==> Best(earlier, m) != Some(p.priority)
      invariant forall m :: Lookup(best, m) == if m in left then Best(earlier, m) else Best(earlier + [p], m)
      decreases |left|
    {
      var m :| m in left;
      assert Lookup(best, m) == Best(earlier, m);
      if m in best && p.priority == best[m] {
        return Rejected, best;
      }
      if m !in best || p.priority > best[m] {
        best := best[m := p.priority];
      }
      left := left - {m};
    }
    v := Accepted;
  }

  // ----- the primary provider -----

  predicate Serves(p: Provider, model: string) {
    model in p.models
  }

  /** Provider `i` serves the model at a strictly higher priority than any other. */
  ghost predicate IsTop(providers: seq<Provider>, model: string, i: int) {
    && 0 <= i < |providers| && Serves(providers[i], model)
    && forall j :: 0 <= j < |providers| && j != i && Serves(providers[j], model) ==>
        providers[j].priority < providers[i].priority
  }

  ghost predicate HasTop(providers: seq<Provider>, model: string) {
    exists i :: IsTop(providers, model, i)
  }

  ghost predicate Served(providers: seq<Provider>, model: string) {
    exists i :: 0 <= i < |providers| && Serves(providers[i], model)
  }

  lemma {:induction false} BestIsMax(providers: seq<Provider>, model: string)
    ensures Best(providers, model).Some? <==> Served(providers, model)
    ensures Best(providers, model).Some? ==>
              && (forall j :: 0 <= j < |providers| && Serves(providers[j], model) ==>
                  providers[j].priority <= Best(providers, model).value)
              && exists j :: 0 <= j < |providers| && Serves(providers[j], model)
                             && providers[j].priority == Best(providers, model).value
  {
    if providers != [] {
      var n := |providers| - 1;
      BestIsMax(providers[..n], model);
      assert forall j :: 0 <= j < n ==> providers[..n][j] == providers[j];
      if Best(providers[..n], model).Some? {
        var j :| 0 <= j < n && Serves(providers[..n][j], model) &&
          providers[..n][j].priority == Best(providers[..n], model).value;
        assert Serves(providers[j], model);
      }
      if Serves(providers[n], model) {
        assert Served(providers, model);
      }
    }
  }

  /** A unique top before, and a newcomer not at its level: a unique top after. */
  lemma TopStep(providers: seq<Provider>, model: string)
    requires providers != []
    requires Served(providers[..|providers| - 1], model) ==> HasTop(providers[..|providers| - 1], model)
    ensures Served(providers, model) ==>
              (HasTop(providers, model) <==>
                 !(Serves(providers[|providers| - 1], model) &&
                   Best(providers[..|providers| - 1], model) == Some(providers[|providers| - 1].priority)))
  {
    var n := |providers| - 1;
    var rest := providers[..n];
    BestIsMax(rest, model);
    assert forall j :: 0 <= j < n ==> rest[j] == providers[j];
    if Served(rest, model) {
      var i :| IsTop(rest, model, i);
      assert Best(rest, model) == Some(rest[i].priority);
      if !Serves(providers[n], model) || providers[n].priority < rest[i].priority {
        assert IsTop(providers, model, i);
      } else if providers[n].priority > rest[i].priority {
        assert IsTop(providers, model, n);
      } else {
        assert Serves(providers[i], model) && i != n;
        forall t ensures !IsTop(providers, model, t) {
        }
      }
    } else if Served(providers, model) {
      assert forall j :: 0 <= j < n ==> !Serves(rest[j], model);
      assert IsTop(providers, model, n);
    }
  }

  ghost predicate EveryPrefixHasTop(providers: seq<Provider>) {
    forall i, m :: 0 <= i <= |providers| && Served(providers[..i], m) ==> HasTop(providers[..i], m)
  }

  ghost predicate EveryModelHasTop(providers: seq<Provider>) {
    forall m :: Served(providers, m) ==> HasTop(providers, m)
  }

  lemma PrefixStep(providers: seq<Provider>)
    requires providers != []
    ensures EveryPrefixHasTop(providers) <==>
            EveryPrefixHasTop(providers[..|providers| - 1]) && EveryModelHasTop(providers)
  {
    hide Served, HasTop;
    var n := |providers| - 1;
    var rest := providers[..n];
    assert providers[..|providers|] == providers;
    assert forall i :: 0 <= i <= n ==> rest[..i] == providers[..i];
  }

  lemma NewcomerStep(providers: seq<Provider>)
    requires providers != [] && EveryModelHasTop(providers[..|providers| - 1])
    ensures var n := |providers| - 1;
            EveryModelHasTop(providers) <==>
            forall m :: m in providers[n].models ==> Best(providers[..n], m) != Some(providers[n].priority)
  {
    var n := |providers| - 1;
    forall m ensures Served(providers, m) ==>
                       (HasTop(providers, m) <==>
                           !(m in providers[n].models && Best(providers[..n], m) == Some(providers[n].priority))) {
      TopStep(providers, m);
    }
    forall m | m in providers[n].models ensures Served(providers, m) {
      assert Serves(providers[n], m);
    }
  }

  /**
    The check is order-sensitive: it passes if and only if at every prefix of the
    provider list each model served there has one provider of maximum priority.
   */
  lemma {:induction false} UnambiguousMeansTops(providers: seq<Provider>)
    ensures Unambiguous(providers) <==> EveryPrefixHasTop(providers)
  {
    if providers == [] {
      assert forall m :: !Served([], m);
    } else {
      var n := |providers| - 1;
      UnambiguousMeansTops(providers[..n]);
      OneMoreProvider(providers, n);
      assert providers[..n + 1] == providers && providers[..n][..n] == providers[..n];
      hide Unambiguous, Served, HasTop, Best;
      PrefixStep(providers);
      if EveryPrefixHasTop(providers[..n]) {
        NewcomerStep(providers);
      }
    }
  }

  /** A validated configuration has exactly one primary provider for every model it serves. */
  lemma PrimaryIsUnique(cfg: Config, normalize: string -> string, model: string)
    requires Valid(cfg, normalize) && Served(cfg.providers, model)
    ensures HasTop(cfg.providers, model)
    ensures forall i, j :: IsTop(cfg.providers, model, i) && IsTop(cfg.providers, model, j) ==> i == j
  {
    UnambiguousMeansTops(cfg.providers);
    assert cfg.providers[..|cfg.providers|] == cfg.providers;
  }

  /** Three providers of one model, with the given priorities. */
  function Three(model: string, a: int, b: int, c: int): seq<Provider> {
    var o, t := ProviderOverride(None, []), ModelTarget("upstream", None);
    [Provider("a", "url", "key", a, false, map[model := t], o),
     Provider("b", "url", "key", b, false, map[model := t], o),
     Provider("c", "url", "key", c, false, map[model := t], o)]
  }

  /**
    A unique maximum is not enough to pass: the tie may be met before the maximum is.
    A tie below a maximum already met passes.
   */
  lemma OrderMatters(model: string)
    ensures IsTop(Three(model, 1, 1, 2), model, 2) && !Unambiguous(Three(model, 1, 1, 2))
    ensures IsTop(Three(model, 2, 1, 1), model, 0) && Unambiguous(Three(model, 2, 1, 1))
  {
  }
}
