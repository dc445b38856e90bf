/**
 The serverless job handler (handle.py): the `setdefault` block on the
 engine configuration and the preparation of a job's `input` before it is
 forwarded to the engine. Unlike the HTTP front-end, this one applies no
 schema and no cap: `max_tokens` is only defaulted.
 */
module Handle {
  import opened Values
  import EngineConfig

  /** Default engine model file of this front-end (an absolute path). */
  const DefaultModelPath := "/models/DeepSeek-R1-0528-Qwen3-8B-Q8_0.gguf"

  /** The fixed `max_tokens` a job gets when it does not name one. */
  const DefaultMaxTokens := 4096

  /** A truthy `input` that is not a dictionary has no `setdefault`:
      Python raises AttributeError and the job fails. */
  datatype HandlerError = NotADict(input: Value)

  /** The four `args.setdefault` calls, applied one after another. */
  method LoadConfig(supplied: Object) returns (args: Object)
    ensures args == EngineConfig.Configured(supplied, DefaultModelPath)
  {
    args := supplied;
    args := SetDefault(args, "n_ctx", Int(EngineConfig.DefaultContext));
    args := SetDefault(args, "n_gpu_layers", Int(EngineConfig.DefaultGpuLayers));
    args := SetDefault(args, "flash_attn", Bool(EngineConfig.DefaultFlashAttention));
    args := SetDefault(args, "model_path", Str(DefaultModelPath));
  }

  /** The keyword arguments forwarded for a job: a missing or falsy input
      counts as `{}`, and `max_tokens` is added only when it is missing. */
  function Forwarded(event: Object): (r: Result<Object, HandlerError>)
    ensures ("input" !in event || !Truthy(event["input"])) ==>
              r == Ok(map["max_tokens" := Int(DefaultMaxTokens)])
    ensures r.Err? <==> "input" in event && Truthy(event["input"]) && !event["input"].Dict?
    ensures r.Ok? ==> "max_tokens" in r.value
    ensures r.Ok? && "input" in event && event["input"].Dict? ==>
              && r.value.Keys == event["input"].entries.Keys + {"max_tokens"}
              && (forall k :: k in event["input"].entries ==> r.value[k] == event["input"].entries[k])
              && ("max_tokens" !in event["input"].entries ==> r.value["max_tokens"] == Int(DefaultMaxTokens))
  {
    var input := Get(event, "input", Dict(map[]));
    if !Truthy(input) then Ok(map["max_tokens" := Int(DefaultMaxTokens)])
    else if input.Dict? then Ok(map["max_tokens" := Int(DefaultMaxTokens)] + input.entries)
    else Err(NotADict(input))
  }

  /** `handler` up to the engine call: take `event["input"]` (or `{}` when
      it is missing or falsy), then `setdefault` its `max_tokens`. */
  method PrepareInput(event: Object) returns (r: Result<Object, HandlerError>)
    ensures r == Forwarded(event)
  {
    var input := Get(event, "input", Dict(map[]));
    if !Truthy(input) {
      input := Dict(map[]);
    }
    if !input.Dict? {
      return Err(NotADict(input));
    }
    var inp := SetDefault(input.entries, "max_tokens", Int(DefaultMaxTokens));
    SetDefaultIsMergeUnder(input.entries, "max_tokens", Int(DefaultMaxTokens));
    assert input.entries == map[] ==> inp == map["max_tokens" := Int(DefaultMaxTokens)];
    return Ok(inp);
  }

  /** A given `max_tokens` is forwarded as it is, whatever its value or
      type: no bound and no cap apply here. */
  lemma GivenMaxTokensUntouched(event: Object)
    requires "input" in event && event["input"].Dict?
    requires "max_tokens" in event["input"].entries
    ensures Forwarded(event) == Ok(event["input"].entries)
  {
    SetDefaultIsMergeUnder(event["input"].entries, "max_tokens", Int(DefaultMaxTokens));
  }

  /** Preparing a job whose input is an already prepared map changes nothing. */
  lemma ForwardedIdempotent(event: Object)
    requires Forwarded(event).Ok?
    ensures Forwarded(map["input" := Dict(Forwarded(event).value)]) == Forwarded(event)
  {
    var out := Forwarded(event).value;
    assert "max_tokens" in out;
    assert Truthy(Dict(out));
    SetDefaultIsMergeUnder(out, "max_tokens", Int(DefaultMaxTokens));
  }
}
