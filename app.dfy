/**
 The HTTP front-end (app.py): the `ChatRequest` schema with its defaults
 and bounds, `_inject_defaults`, which turns an accepted request into the
 keyword arguments of the engine call, the `setdefault` block on the engine
 configuration, and the `/ping` health report.

 `DEFAULT_MAX_TOKENS` and `MAX_TOKENS_CAP` come from the environment; they
 are parameters here (`defaultMaxTokens`, `maxTokensCap`), any integers.
 */
module App {
  import opened Values
  import Paths
  import EngineConfig

  /** Default engine model file of this front-end (a bare file name). */
  const DefaultModelPath := "DeepSeek-R1-0528-Qwen3-8B-Q8_0.gguf"

  /** Schema defaults: 0.7 and 0.95. */
  const DefaultTemperature := Decimal(7, -1)
  const DefaultTopP := Decimal(95, -2)

  /** Schema bounds on a given `max_tokens`. */
  const MinMaxTokens := 1
  const MaxMaxTokens := 8192

  datatype ChatMessage = ChatMessage(role: string, content: string)

  /** An accepted request body; `None` is Python's `None`. */
  datatype ChatRequest = ChatRequest(
    messages: seq<ChatMessage>,
    maxTokens: Option<int>,
    temperature: Option<Decimal>,
    topP: Option<Decimal>,
    stop: Option<seq<string>>)

  /** A rejected request body, naming the first offending field. */
  datatype ValidationError = Invalid(field: string)

  function Min(a: int, b: int): int
  {
    if a <= b then a else b
  }

  // ---------------------------------------------------------------------------
  // The ChatRequest schema
  // ---------------------------------------------------------------------------

  /** Validates every element of a list, keeping their order; the list is
      accepted exactly when every element is. */
  function ParseEach<T>(vs: seq<Value>, parse: Value -> Result<T, ValidationError>): (r: Result<seq<T>, ValidationError>)
    ensures r.Ok? <==> forall i :: 0 <= i < |vs| ==> parse(vs[i]).Ok?
    ensures r.Ok? ==> |r.value| == |vs| && forall i :: 0 <= i < |vs| ==> parse(vs[i]) == Ok(r.value[i])
  {
    if vs == [] then Ok([])
    else
      match parse(vs[0])
      case Err(e) => Err(e)
      case Ok(x) =>
        match ParseEach(vs[1..], parse)
        case Err(e) => Err(e)
        case Ok(xs) => Ok([x] + xs)
  }

  /** A `ChatMessage`: an object whose `role` and `content` are strings;
      other keys are ignored. */
  function ParseMessage(v: Value): Result<ChatMessage, ValidationError>
  {
    if v.Dict? && "role" in v.entries && v.entries["role"].Str?
       && "content" in v.entries && v.entries["content"].Str?
    then Ok(ChatMessage(v.entries["role"].s, v.entries["content"].s))
    else Err(Invalid("messages"))
  }

  function ParseString(v: Value): Result<string, ValidationError>
  {
    if v.Str? then Ok(v.s) else Err(Invalid("stop"))
  }

  /** The message list is required; an empty list is accepted. */
  function ParseMessages(f: Option<Value>): (r: Result<seq<ChatMessage>, ValidationError>)
    ensures r.Ok? <==> f.Some? && f.value.List?
                       && forall i :: 0 <= i < |f.value.items| ==> ParseMessage(f.value.items[i]).Ok?
    ensures r.Ok? ==> |r.value| == |f.value.items|
    ensures r.Ok? ==> forall i :: 0 <= i < |r.value| ==>
              && f.value.items[i].Dict?
              && "role" in f.value.items[i].entries && f.value.items[i].entries["role"].Str?
              && "content" in f.value.items[i].entries && f.value.items[i].entries["content"].Str?
              && r.value[i] == ChatMessage(f.value.items[i].entries["role"].s,
                                           f.value.items[i].entries["content"].s)
  {
    if f.Some? && f.value.List? then ParseEach(f.value.items, ParseMessage)
    else Err(Invalid("messages"))
  }

  /** An optional integer, `None` by default; the bounds 1..8192 apply
      only when an integer is given. */
  function ParseMaxTokens(f: Option<Value>): (r: Result<Option<int>, ValidationError>)
    ensures r.Ok? <==> f.None? || f.value.Null?
                       || (f.value.Int? && MinMaxTokens <= f.value.i <= MaxMaxTokens)
    ensures r.Ok? ==> (r.value.None? <==> f.None? || f.value.Null?)
    ensures r.Ok? && f.Some? && f.value.Int? ==> r.value == Some(f.value.i)
  {
    match f
    case None => Ok(None)
    case Some(Null) => Ok(None)
    case Some(Int(i)) =>
      if MinMaxTokens <= i <= MaxMaxTokens then Ok(Some(i)) else Err(Invalid("max_tokens"))
    case Some(_) => Err(Invalid("max_tokens"))
  }

  /** `temperature` and `top_p`: optional floats with a default. The default
      applies only when the field is absent; an explicit null stays `None`.
      An integer is accepted as a float. */
  function ParseSampling(f: Option<Value>, default: Decimal, field: string): (r: Result<Option<Decimal>, ValidationError>)
    ensures r.Ok? <==> f.None? || f.value.Null? || f.value.Float? || f.value.Int?
    ensures f.None? ==> r == Ok(Some(default))
    ensures f.Some? && f.value.Null? ==> r == Ok(None)
    ensures f.Some? && f.value.Float? ==> r == Ok(Some(f.value.x))
    ensures f.Some? && f.value.Int? ==> r == Ok(Some(Decimal(f.value.i, 0)))
  {
    match f
    case None => Ok(Some(default))
    case Some(Null) => Ok(None)
    case Some(Float(x)) => Ok(Some(x))
    case Some(Int(i)) => Ok(Some(Decimal(i, 0)))
    case Some(_) => Err(Invalid(field))
  }

  /** An optional list of strings, `None` by default. */
  function ParseStop(f: Option<Value>): (r: Result<Option<seq<string>>, ValidationError>)
    ensures r.Ok? <==> f.None? || f.value.Null?
                       || (f.value.List? && forall i :: 0 <= i < |f.value.items| ==> f.value.items[i].Str?)
    ensures r.Ok? ==> (r.value.None? <==> f.None? || f.value.Null?)
    ensures r.Ok? && f.Some? && f.value.List? ==>
              && |r.value.value| == |f.value.items|
              && forall i :: 0 <= i < |f.value.items| ==>
                   f.value.items[i].Str? && r.value.value[i] == f.value.items[i].s
  {
    match f
    case None => Ok(None)
    case Some(Null) => Ok(None)
    case Some(List(items)) =>
      (match ParseEach(items, ParseString)
       case Ok(xs) => Ok(Some(xs))
       case Err(e) => Err(e))
    case Some(_) => Err(Invalid("stop"))
  }

  /** Validation of a request body against `ChatRequest`; unknown keys are ignored. */
  function ParseRequest(body: Object): (r: Result<ChatRequest, ValidationError>)
    ensures r.Ok? <==>
              && "messages" in body && body["messages"].List?
              && (forall i :: 0 <= i < |body["messages"].items| ==>
                    ParseMessage(body["messages"].items[i]).Ok?)
              && ("max_tokens" in body ==>
                    body["max_tokens"].Null?
                    || (body["max_tokens"].Int? && MinMaxTokens <= body["max_tokens"].i <= MaxMaxTokens))
              && ("temperature" in body ==>
                    body["temperature"].Null? || body["temperature"].Float? || body["temperature"].Int?)
              && ("top_p" in body ==> body["top_p"].Null? || body["top_p"].Float? || body["top_p"].Int?)
              && ("stop" in body ==>
                    body["stop"].Null?
                    || (body["stop"].List? && forall i :: 0 <= i < |body["stop"].items| ==> body["stop"].items[i].Str?))
    ensures r.Ok? ==> "messages" in body && body["messages"].List?
                      && |r.value.messages| == |body["messages"].items|
    ensures r.Ok? ==> forall i :: 0 <= i < |r.value.messages| ==>
              && body["messages"].items[i].Dict?
              && "role" in body["messages"].items[i].entries && body["messages"].items[i].entries["role"].Str?
              && "content" in body["messages"].items[i].entries && body["messages"].items[i].entries["content"].Str?
              && r.value.messages[i] == ChatMessage(body["messages"].items[i].entries["role"].s,
                                                    body["messages"].items[i].entries["content"].s)
    ensures r.Ok? && r.value.maxTokens.Some? ==>
              MinMaxTokens <= r.value.maxTokens.value <= MaxMaxTokens
    ensures ("max_tokens" in body && body["max_tokens"].Int?
             && !(MinMaxTokens <= body["max_tokens"].i <= MaxMaxTokens)) ==> r.Err?
    ensures r.Ok? ==> (r.value.maxTokens.None? <==> "max_tokens" !in body || body["max_tokens"] == Null)
    ensures r.Ok? && "max_tokens" in body && body["max_tokens"].Int? ==>
              r.value.maxTokens == Some(body["max_tokens"].i)
    ensures r.Ok? && "temperature" !in body ==> r.value.temperature == Some(DefaultTemperature)
    ensures r.Ok? && "top_p" !in body ==> r.value.topP == Some(DefaultTopP)
    ensures r.Ok? && "temperature" in body && body["temperature"] == Null ==> r.value.temperature.None?
    ensures r.Ok? && "top_p" in body && body["top_p"] == Null ==> r.value.topP.None?
    ensures r.Ok? && "temperature" in body && body["temperature"].Float? ==>
              r.value.temperature == Some(body["temperature"].x)
    ensures r.Ok? && "top_p" in body && body["top_p"].Float? ==> r.value.topP == Some(body["top_p"].x)
    ensures r.Ok? && "temperature" in body && body["temperature"].Int? ==>
              r.value.temperature == Some(Decimal(body["temperature"].i, 0))
    ensures r.Ok? && "top_p" in body && body["top_p"].Int? ==>
              r.value.topP == Some(Decimal(body["top_p"].i, 0))
    ensures r.Ok? ==> (r.value.stop.None? <==> "stop" !in body || body["stop"] == Null)
    ensures r.Ok? && "stop" in body && body["stop"].List? ==>
              && r.value.stop.Some? && |r.value.stop.value| == |body["stop"].items|
              && forall i :: 0 <= i < |body["stop"].items| ==>
                   body["stop"].items[i].Str? && r.value.stop.value[i] == body["stop"].items[i].s
  {
    Assemble(ParseMessages(Lookup(body, "messages")),
             ParseMaxTokens(Lookup(body, "max_tokens")),
             ParseSampling(Lookup(body, "temperature"), DefaultTemperature, "temperature"),
             ParseSampling(Lookup(body, "top_p"), DefaultTopP, "top_p"),
             ParseStop(Lookup(body, "stop")))
  }

  /** The request built from the five field results, or the first field's error. */
  function Assemble(messages: Result<seq<ChatMessage>, ValidationError>,
                    maxTokens: Result<Option<int>, ValidationError>,
                    temperature: Result<Option<Decimal>, ValidationError>,
                    topP: Result<Option<Decimal>, ValidationError>,
                    stop: Result<Option<seq<string>>, ValidationError>): (r: Result<ChatRequest, ValidationError>)
    ensures r.Ok? <==> messages.Ok? && maxTokens.Ok? && temperature.Ok? && topP.Ok? && stop.Ok?
    ensures r.Ok? ==> r.value == ChatRequest(messages.value, maxTokens.value, temperature.value, topP.value, stop.value)
  {
    var messages :- messages;
    var maxTokens :- maxTokens;
    var temperature :- temperature;
    var topP :- topP;
    var stop :- stop;
    Ok(ChatRequest(messages, maxTokens, temperature, topP, stop))
  }

  // ---------------------------------------------------------------------------
  // model_dump(exclude_none=True) and _inject_defaults
  // ---------------------------------------------------------------------------

  function DumpMessage(m: ChatMessage): Value
  {
    Dict(map["role" := Str(m.role), "content" := Str(m.content)])
  }

  /** The dumped message list, which the schema reads back as the same messages. */
  function DumpMessages(ms: seq<ChatMessage>): (vs: seq<Value>)
    ensures ParseEach(vs, ParseMessage) == Ok(ms)
  {
    var vs := seq(|ms|, i requires 0 <= i < |ms| => DumpMessage(ms[i]));
    assert forall i :: 0 <= i < |vs| ==> ParseMessage(vs[i]) == Ok(ms[i]);
    assert ParseEach(vs, ParseMessage).Ok?;
    assert ParseEach(vs, ParseMessage).value == ms;
    vs
  }

  /** The dumped stop list, which the schema reads back as the same strings. */
  function DumpStrings(xs: seq<string>): (vs: seq<Value>)
    ensures ParseEach(vs, ParseString) == Ok(xs)
  {
    var vs := seq(|xs|, i requires 0 <= i < |xs| => Str(xs[i]));
    assert forall i :: 0 <= i < |vs| ==> ParseString(vs[i]) == Ok(xs[i]);
    assert ParseEach(vs, ParseString).Ok?;
    assert ParseEach(vs, ParseString).value == xs;
    vs
  }

  /** Adds `key := v` when the optional field is set, as `exclude_none` does. */
  function WithField<T>(d: Object, key: string, field: Option<T>, toValue: T -> Value): Object
  {
    if field.Some? then d[key := toValue(field.value)] else d
  }

  /** `payload.model_dump(exclude_none=True)`: exactly the fields that are
      not `None`, each with its value; no value is null. */
  function Dump(req: ChatRequest): (kw: Object)
    ensures kw.Keys <= {"messages", "max_tokens", "temperature", "top_p", "stop"}
    ensures "messages" in kw && kw["messages"] == List(DumpMessages(req.messages))
    ensures ("max_tokens" in kw <==> req.maxTokens.Some?)
            && (req.maxTokens.Some? ==> kw["max_tokens"] == Int(req.maxTokens.value))
    ensures ("temperature" in kw <==> req.temperature.Some?)
            && (req.temperature.Some? ==> kw["temperature"] == Float(req.temperature.value))
    ensures ("top_p" in kw <==> req.topP.Some?)
            && (req.topP.Some? ==> kw["top_p"] == Float(req.topP.value))
    ensures ("stop" in kw <==> req.stop.Some?)
            && (req.stop.Some? ==> kw["stop"] == List(DumpStrings(req.stop.value)))
    ensures forall k :: k in kw ==> kw[k] != Null
  {
    var kw := map["messages" := List(DumpMessages(req.messages))];
    var kw := WithField(kw, "max_tokens", req.maxTokens, i => Int(i));
    var kw := WithField(kw, "temperature", req.temperature, x => Float(x));
    var kw := WithField(kw, "top_p", req.topP, x => Float(x));
    WithField(kw, "stop", req.stop, xs => List(DumpStrings(xs)))
  }

  /** The keyword arguments the engine receives for an accepted request:
      the dumped request with `max_tokens` defaulted and then capped. */
  function Normalize(req: ChatRequest, defaultMaxTokens: int, maxTokensCap: int): (kw: Object)
    ensures "max_tokens" in kw && kw["max_tokens"].Int?
    ensures kw["max_tokens"].i <= maxTokensCap
    ensures req.maxTokens.None? ==> kw["max_tokens"].i == Min(defaultMaxTokens, maxTokensCap)
    ensures req.maxTokens.Some? && req.maxTokens.value <= maxTokensCap ==>
              kw["max_tokens"].i == req.maxTokens.value
    ensures req.maxTokens.Some? && req.maxTokens.value > maxTokensCap ==>
              kw["max_tokens"].i == maxTokensCap
    ensures kw.Keys == Dump(req).Keys + {"max_tokens"}
    ensures forall k :: k in kw && k != "max_tokens" ==> kw[k] == Dump(req)[k]
    ensures forall k :: k in kw ==> kw[k] != Null
  {
    Dump(req)["max_tokens" := Int(Min(req.maxTokens.GetOr(defaultMaxTokens), maxTokensCap))]
  }

  /** `_inject_defaults`: dump the request, then overwrite `max_tokens` in place. */
  method InjectDefaults(payload: ChatRequest, defaultMaxTokens: int, maxTokensCap: int) returns (kw: Object)
    ensures kw == Normalize(payload, defaultMaxTokens, maxTokensCap)
  {
    kw := Dump(payload);
    var requested := Get(kw, "max_tokens", Int(defaultMaxTokens));
    assert requested.Int?;
    kw := kw["max_tokens" := Int(Min(requested.i, maxTokensCap))];
  }

  // ---------------------------------------------------------------------------
  // Engine configuration and health report
  // ---------------------------------------------------------------------------

  /** The four `ARGS.setdefault` calls, applied one after another. */
  method LoadConfig(supplied: Object) returns (args: Object)
    ensures args == LoadedArgs(supplied)
  {
    args := supplied;
    args := SetDefault(args, "n_ctx", Int(EngineConfig.DefaultContext));
    args := SetDefault(args, "n_gpu_layers", Int(EngineConfig.DefaultGpuLayers));
    args := SetDefault(args, "flash_attn", Bool(EngineConfig.DefaultFlashAttention));
    args := SetDefault(args, "model_path", Str(DefaultModelPath));
  }

  datatype HealthReport = HealthReport(status: string, model: string)

  /** `os.path.basename` raises a TypeError (an HTTP 500) on a non-string. */
  datatype HealthError = NotAPath(model: Value)

  /** `/ping`: status "ok" and the base name of `ARGS["model"]`, or "" when
      that key is missing. */
  function Health(args: Object): (r: Result<HealthReport, HealthError>)
    ensures r.Ok? ==> r.value.status == "ok"
    ensures r.Err? <==> "model" in args && !args["model"].Str?
    ensures "model" !in args ==> r == Ok(HealthReport("ok", ""))
    ensures r.Ok? && "model" in args ==> Paths.IsBasename(args["model"].s, r.value.model)
  {
    match Get(args, "model", Str(""))
    case Str(p) => Ok(HealthReport("ok", Paths.Basename(p)))
    case v => Err(NotAPath(v))
  }

  /** The report the endpoint is evidently meant to give: the base name of
      the file the engine was built from, which is `ARGS["model_path"]`. */
  function LoadedModelHealth(args: Object): (r: Result<HealthReport, HealthError>)
    ensures r.Ok? ==> r.value.status == "ok"
    ensures r.Err? <==> "model_path" in args && !args["model_path"].Str?
    ensures r.Ok? && "model_path" in args ==> Paths.IsBasename(args["model_path"].s, r.value.model)
  {
    match Get(args, "model_path", Str(""))
    case Str(p) => Ok(HealthReport("ok", Paths.Basename(p)))
    case v => Err(NotAPath(v))
  }

  // ---------------------------------------------------------------------------
  // Properties of the request path
  // ---------------------------------------------------------------------------

  /** `model_dump` loses nothing the schema would not restore: a request
      whose optional sampling fields are set validates back to itself. */
  lemma DumpParseRoundTrip(req: ChatRequest)
    requires req.maxTokens.Some? ==> MinMaxTokens <= req.maxTokens.value <= MaxMaxTokens
    requires req.temperature.Some? && req.topP.Some?
    ensures ParseRequest(Dump(req)) == Ok(req)
  {
  }

  /** The engine receives exactly the fields the request sets: a field
      that is `None` is absent, any other is copied, and only `max_tokens`
      may differ from the request. */
  lemma NormalizedFields(req: ChatRequest, defaultMaxTokens: int, maxTokensCap: int)
    ensures var kw := Normalize(req, defaultMaxTokens, maxTokensCap);
      && kw.Keys <= {"messages", "max_tokens", "temperature", "top_p", "stop"}
      && kw["messages"] == List(DumpMessages(req.messages))
      && ("temperature" in kw <==> req.temperature.Some?)
      && (req.temperature.Some? ==> kw["temperature"] == Float(req.temperature.value))
      && ("top_p" in kw <==> req.topP.Some?)
      && (req.topP.Some? ==> kw["top_p"] == Float(req.topP.value))
      && ("stop" in kw <==> req.stop.Some?)
      && (req.stop.Some? ==> kw["stop"] == List(DumpStrings(req.stop.value)))
  {
  }

  /** From request body to engine call: `max_tokens` is the default when
      not given, and a given value, already within 1..8192, is capped. */
  lemma ForwardedMaxTokens(body: Object, defaultMaxTokens: int, maxTokensCap: int)
    requires ParseRequest(body).Ok?
    ensures var kw := Normalize(ParseRequest(body).value, defaultMaxTokens, maxTokensCap);
      && kw["max_tokens"].i <= maxTokensCap
      && ("max_tokens" !in body || body["max_tokens"] == Null ==>
            kw["max_tokens"] == Int(Min(defaultMaxTokens, maxTokensCap)))
      && ("max_tokens" in body && body["max_tokens"] != Null ==>
            && body["max_tokens"].Int?
            && MinMaxTokens <= body["max_tokens"].i <= MaxMaxTokens
            && kw["max_tokens"] == Int(Min(body["max_tokens"].i, maxTokensCap)))
  {
  }

  /** Omitting `temperature` or `top_p` yields 0.7 and 0.95; sending null
      instead drops the field; `stop` is forwarded only when given. */
  lemma SamplingDefaults(body: Object, defaultMaxTokens: int, maxTokensCap: int)
    requires ParseRequest(body).Ok?
    ensures var kw := Normalize(ParseRequest(body).value, defaultMaxTokens, maxTokensCap);
      && ("temperature" !in body ==> "temperature" in kw && kw["temperature"] == Float(Decimal(7, -1)))
      && ("top_p" !in body ==> "top_p" in kw && kw["top_p"] == Float(Decimal(95, -2)))
      && ("temperature" in body && body["temperature"] == Null ==> "temperature" !in kw)
      && ("top_p" in body && body["top_p"] == Null ==> "top_p" !in kw)
      && ("stop" !in body || body["stop"] == Null ==> "stop" !in kw)
  {
  }

  /** A body with one user message and nothing else, with both limits at
      4096, reaches the engine as messages, 4096 tokens, 0.7 and 0.95. */
  lemma MinimalRequestScenario()
    ensures var msg := Dict(map["role" := Str("user"), "content" := Str("hi")]);
      var body := map["messages" := List([msg])];
      && ParseRequest(body).Ok?
      && Normalize(ParseRequest(body).value, 4096, 4096) ==
         map["messages" := List([msg]),
             "max_tokens" := Int(4096),
             "temperature" := Float(Decimal(7, -1)),
             "top_p" := Float(Decimal(95, -2))]
  {
    var msg := Dict(map["role" := Str("user"), "content" := Str("hi")]);
    var body := map["messages" := List([msg])];
    var req := ChatRequest([ChatMessage("user", "hi")], None, Some(DefaultTemperature), Some(DefaultTopP), None);
    assert ParseMessage(msg) == Ok(ChatMessage("user", "hi"));
    assert [msg][1..] == [];
    var parsed := ParseEach([msg], ParseMessage);
    assert parsed.Ok? && |parsed.value| == 1 && parsed.value[0] == ChatMessage("user", "hi");
    assert parsed.value == [ChatMessage("user", "hi")];
    assert ParseRequest(body) == Ok(req);
    assert DumpMessages(req.messages) == [msg];
  }

  /** A `max_tokens` above 8192 is rejected by the schema, so it never
      reaches the cap; within the schema's range the cap applies. */
  lemma OversizedRequestRejected(messages: seq<Value>, requested: int)
    requires requested > MaxMaxTokens || requested < MinMaxTokens
    ensures ParseRequest(map["messages" := List(messages), "max_tokens" := Int(requested)]).Err?
  {
  }

  /** `/ping` reads `ARGS["model"]`, which no default fills: whenever the
      configuration names no "model", the report is blank although the
      engine was built from `ARGS["model_path"]`, which is always set. */
  lemma HealthIgnoresModelPath(supplied: Object)
    requires "model" !in supplied
    ensures var args := LoadedArgs(supplied);
      && "model_path" in args
      && Health(args) == Ok(HealthReport("ok", ""))
  {
  }

  /** With a configuration like the one app.py's opening comment suggests
      (a "model" key naming `dir/name`, no "model_path"), `/ping` names
      `name` while the engine was built from the default model file. */
  lemma HealthNamesUnloadedModel(supplied: Object, dir: string, name: string)
    requires "model_path" !in supplied
    requires "model" in supplied && supplied["model"] == Str(dir + "/" + name)
    requires '/' !in name
    ensures var args := LoadedArgs(supplied);
      && args["model_path"] == Str(DefaultModelPath)
      && Health(args) == Ok(HealthReport("ok", name))
      && LoadedModelHealth(args) == Ok(HealthReport("ok", DefaultModelPath))
  {
    Paths.BasenameOfJoin(dir, name);
    DefaultModelPathIsName();
  }

  /** The corrected report names the file the engine was built from; with
      no path supplied that is the default model file. */
  lemma LoadedModelHealthNamesEngineFile(supplied: Object)
    requires "model_path" in supplied ==> supplied["model_path"].Str?
    ensures var args := LoadedArgs(supplied);
      && LoadedModelHealth(args).Ok?
      && LoadedModelHealth(args).value.model == Paths.Basename(args["model_path"].s)
      && ("model_path" !in supplied ==> LoadedModelHealth(args).value.model == DefaultModelPath)
  {
    var args := LoadedArgs(supplied);
    Paths.BasenameUnique(args["model_path"].s, LoadedModelHealth(args).value.model);
    DefaultModelPathIsName();
  }

  /** The configuration `LoadConfig` produces. */
  function LoadedArgs(supplied: Object): Object
  {
    EngineConfig.Configured(supplied, DefaultModelPath)
  }

  lemma DefaultModelPathIsName()
    ensures Paths.Basename(DefaultModelPath) == DefaultModelPath
  {
    Paths.BasenameOfName(DefaultModelPath);
  }
}
