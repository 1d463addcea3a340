/**
  The generation parameters of a request, canonical (codec/types.go) and on the OpenAI
  wire (codec/upstream.go, codec/openai_decode.go, codec/reasoning.go): both directions,
  and exactly when what is sent survives being decoded and sent again.
 */
module Parameters {
  import opened Wrappers
  import opened JsonValues

  // ----- canonical -----

  datatype ReasoningValue = ReasoningValue(mode: string, effort: Option<string>)

  /** Structured-output preferences; a nil schema is `JNull`. */
  datatype FormatValue = FormatValue(kind: string, name: string, schema: Json, strict: Option<bool>)

  datatype ParamsValue = ParamsValue(
    maxTokens: Option<int>, temperature: Option<real>, topP: Option<real>,
    stop: seq<string>, reasoning: Option<ReasoningValue>, format: Option<FormatValue>)

  datatype ToolChoice = ToolChoice(kind: string, name: string)

  /** What the decoder finds besides messages and tools. */
  datatype Settings = Settings(model: string, stream: bool, choice: Option<ToolChoice>, params: ParamsValue)

  // ----- where a request is sent -----

  datatype Capability = Capability(allowedEfforts: seq<string>, effortMap: map<string, string>)

  /** `strings.ToLower(strings.TrimSpace(_))` and `strings.EqualFold`, arbitrary functions here. */
  datatype Folding = Folding(normalize: string -> string, same: (string, string) -> bool)

  datatype Upstream = Upstream(model: string, stream: bool, capability: Option<Capability>, text: Folding)

  // ----- on the wire -----

  datatype WireStop = NoStop | OneStop(text: string) | StopList(texts: seq<string>) | BadStop

  datatype WireChoice = NoChoice | Word(word: string) | Object(kind: string, name: string) | BadChoice

  datatype WireSettings = WireSettings(
    model: string, stream: Option<bool>, includeUsage: bool,
    maxTokens: Option<int>, maxTokensLegacy: Option<int>, temperature: Option<real>, topP: Option<real>,
    stop: WireStop, choice: WireChoice, format: Json, effort: Option<string>)

  // ----- reasoning effort -----

  predicate Allowed(efforts: seq<string>, effort: string, text: Folding) {
    exists i :: 0 <= i < |efforts| && text.same(efforts[i], effort)
  }

  /** An effort as the upstream is told it: mapped, and `medium` if what comes out is not allowed. */
  function Land(effort: string, capability: Capability, text: Folding): string {
    var e := text.normalize(effort);
    var mapped := if e in capability.effortMap then capability.effortMap[e] else e;
    if Allowed(capability.allowedEfforts, mapped, text) then mapped else "medium"
  }

  /** Whether the upstream is told an effort at all. */
  predicate Tellable(r: Option<ReasoningValue>, capability: Option<Capability>) {
    && r.Some? && r.value.mode != "disabled" && r.value.effort.Some?
    && capability.Some? && capability.value.allowedEfforts != []
  }

  function Effort(r: Option<ReasoningValue>, to: Upstream): Option<string> {
    if Tellable(r, to.capability) then Some(Land(r.value.effort.value, to.capability.value, to.text)) else None
  }

  method BuildOpenAIReasoning(r: Option<ReasoningValue>, to: Upstream) returns (effort: Option<string>)
    ensures effort == Effort(r, to)
  {
    if r.None? || r.value.mode == "disabled" || r.value.effort.None? ||
       to.capability.None? || |to.capability.value.allowedEfforts| == 0 {
      return None;
    }
    var capability := to.capability.value;
    var e := to.text.normalize(r.value.effort.value);
    if e in capability.effortMap {
      e := capability.effortMap[e];
    }
    for i := 0 to |capability.allowedEfforts|
      invariant forall k :: 0 <= k < i ==> !to.text.same(capability.allowedEfforts[k], e)
    {
      if to.text.same(capability.allowedEfforts[i], e) {
        return Some(e);
      }
    }
    effort := Some("medium");
  }

  // ----- encoding -----

  function EncodeChoice(choice: Option<ToolChoice>): WireChoice {
    if choice.None? then NoChoice
    else if choice.value.kind == "required" then Word("required")
    else if choice.value.kind == "tool" then
      if choice.value.name != "" then Object("function", choice.value.name) else NoChoice
    else Word("auto")
  }

  function EncodeFormat(format: Option<FormatValue>): Json {
    if format.None? then JNull
    else
      var f := format.value;
      if f.kind == "json_object" then JObject([Member("type", JString("json_object"))])
      else if f.kind == "json_schema" && f.schema != JNull then
        JObject([Member("type", JString("json_schema")), Member("json_schema", SchemaObject(f))])
      else JNull
  }

  function SchemaObject(f: FormatValue): Json {
    var name, schema := Member("name", JString(if f.name == "" then "structured_output" else f.name)),
      Member("schema", f.schema);
    JObject(if f.strict.Some? then [name, schema, Member("strict", JBool(f.strict.value))] else [name, schema])
  }

  function EncodeSettings(choice: Option<ToolChoice>, p: ParamsValue, to: Upstream): WireSettings {
    WireSettings(to.model, if to.stream then Some(true) else None, to.stream,
                 p.maxTokens, None, p.temperature, p.topP,
                 if p.stop == [] then NoStop else StopList(p.stop),
                 EncodeChoice(choice), EncodeFormat(p.format), Effort(p.reasoning, to))
  }

  // ----- decoding -----

  /** The value of a key; of several, the last. */
  function Lookup(members: seq<Member>, key: string): Option<Json> {
    if members == [] then None
    else if members[|members| - 1].key == key then Some(members[|members| - 1].value)
    else Lookup(members[..|members| - 1], key)
  }

  function TextAt(members: seq<Member>, key: string): string {
    var v := Lookup(members, key);
    if v.Some? && v.value.JString? then v.value.s else ""
  }

  function DecodeFormat(raw: Json): Option<FormatValue> {
    if !raw.JObject? then None
    else if TextAt(raw.members, "type") == "json_object" then Some(FormatValue("json_object", "", JNull, None))
    else if TextAt(raw.members, "type") == "json_schema" then Some(DecodeSchema(Lookup(raw.members, "json_schema")))
    else None
  }

  function DecodeSchema(raw: Option<Json>): FormatValue {
    if raw.None? || !raw.value.JObject? then FormatValue("json_schema", "structured_output", JNull, None)
    else
      var m := raw.value.members;
      var name, strict, schema := TextAt(m, "name"), Lookup(m, "strict"), Lookup(m, "schema");
      FormatValue("json_schema", if name != "" then name else "structured_output",
                  if schema.Some? then schema.value else JNull,
                  if strict.Some? && strict.value.JBool? then Some(strict.value.b) else None)
  }

  function DecodeChoice(raw: WireChoice): Option<ToolChoice> {
    match raw
    case Word(word) => if word == "auto" || word == "required" then Some(ToolChoice(word, "")) else None
    case Object(kind, name) => if kind == "function" && name != "" then Some(ToolChoice("tool", name)) else None
    case _ => None
  }

  function DecodeStop(raw: WireStop): Result<seq<string>, string> {
    match raw
    case NoStop => Ok([])
    case OneStop(text) => Ok([text])
    case StopList(texts) => Ok(texts)
    case BadStop => Err("decode openai stop")
  }

  function DecodeSettings(w: WireSettings): Result<Settings, string> {
    if w.model == "" then Err("openai request: model is required")
    else
      match DecodeStop(w.stop)
      case Err(e) => Err(e)
      case Ok(stop) =>
        Ok(Settings(w.model, w.stream == Some(true), DecodeChoice(w.choice),
                    ParamsValue(if w.maxTokens.Some? then w.maxTokens else w.maxTokensLegacy,
                                w.temperature, w.topP, stop,
                                if w.effort.Some? && w.effort.value != ""
                                then Some(ReasoningValue("", w.effort)) else None,
                                DecodeFormat(w.format))))
  }

  // ----- what is sent, decoded and sent again -----

  lemma ChoiceFixed(choice: Option<ToolChoice>)
    ensures EncodeChoice(DecodeChoice(EncodeChoice(choice))) == EncodeChoice(choice)
  {
  }

  lemma LookupTwo(a: Member, b: Member, key: string)
    ensures Lookup([a], key) == if a.key == key then Some(a.value) else None
    ensures Lookup([a, b], key) == if b.key == key then Some(b.value) else Lookup([a], key)
  {
    assert [a][..0] == [] && [a, b][..1] == [a];
  }

  lemma LookupThree(a: Member, b: Member, c: Member, key: string)
    ensures Lookup([a, b, c], key) == if c.key == key then Some(c.value) else Lookup([a, b], key)
  {
    assert [a, b, c][..2] == [a, b];
  }

  lemma SchemaBack(f: FormatValue)
    requires f.schema != JNull
    ensures DecodeSchema(Some(SchemaObject(f))) ==
            FormatValue("json_schema", if f.name == "" then "structured_output" else f.name, f.schema, f.strict)
  {
    var name, schema := Member("name", JString(if f.name == "" then "structured_output" else f.name)),
      Member("schema", f.schema);
    var strict := Member("strict", JBool(f.strict.Some? && f.strict.value));
    LookupTwo(name, schema, "name");
    LookupTwo(name, schema, "schema");
    LookupTwo(name, schema, "strict");
    LookupThree(name, schema, strict, "name");
    LookupThree(name, schema, strict, "schema");
    LookupThree(name, schema, strict, "strict");
    hide Lookup;
    assert SchemaObject(f) == JObject(if f.strict.Some? then [name, schema, strict] else [name, schema]);
  }

  lemma FormatFixed(format: Option<FormatValue>)
    ensures EncodeFormat(DecodeFormat(EncodeFormat(format))) == EncodeFormat(format)
  {
    if format.Some? {
      var f := format.value;
      var kind, body := Member("type", JString(f.kind)), Member("json_schema", SchemaObject(f));
      LookupTwo(kind, body, "type");
      LookupTwo(kind, body, "json_schema");
      if f.schema != JNull { SchemaBack(f); }
      hide Lookup, DecodeSchema;
    }
  }

  /** The effort sent, sent again, is the same. */
  predicate Settled(effort: Option<string>, to: Upstream) {
    effort.Some? ==>
      && effort.value != ""
      && to.capability.Some?
      && Land(effort.value, to.capability.value, to.text) == effort.value
  }

  /**
    Sent parameters decode if and only if the upstream model is named, and then they are
    sent again unchanged if and only if the effort is: it is not empty, and normalising
    and mapping it a second time lands on it.
   */
  lemma SettingsFixpoint(choice: Option<ToolChoice>, p: ParamsValue, to: Upstream)
    ensures var w := EncodeSettings(choice, p, to);
            && (DecodeSettings(w).Ok? <==> to.model != "")
            && (to.model != "" ==>
                  var s := DecodeSettings(w).value;
                  && s.model == to.model && s.stream == to.stream
                  && (EncodeSettings(s.choice, s.params, to) == w <==> Settled(w.effort, to)))
  {
    ChoiceFixed(choice);
    FormatFixed(p.format);
    hide EncodeChoice, DecodeChoice, EncodeFormat, DecodeFormat, Land;
  }

  /** An effort that neither maps on nor loses its spelling is settled wherever it is allowed. */
  lemma PlainEffortSettles(effort: string, to: Upstream)
    requires to.capability.Some? && effort != "" && to.text.normalize(effort) == effort
    requires effort !in to.capability.value.effortMap
    ensures Settled(Some(effort), to) <==>
            Allowed(to.capability.value.allowedEfforts, effort, to.text) || effort == "medium"
  {
  }
}
