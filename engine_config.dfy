/**
 The engine construction parameters both front-ends pass to `Llama(**args)`:
 the parsed `LLAMA_ARGS` object with four defaults filled in by
 `setdefault`. The two front-ends differ only in the default model path.
 */
module EngineConfig {
  import opened Values

  const DefaultContext := 32768
  /** -1 asks the engine to offload every layer to the GPU. */
  const DefaultGpuLayers := -1
  const DefaultFlashAttention := true

  const DefaultedKeys: set<string> := {"n_ctx", "n_gpu_layers", "flash_attn", "model_path"}

  /** The defaults alone, as a dictionary. */
  function Defaults(modelPath: string): (d: Object)
    ensures d.Keys == DefaultedKeys
  {
    map["n_ctx" := Int(DefaultContext),
        "n_gpu_layers" := Int(DefaultGpuLayers),
        "flash_attn" := Bool(DefaultFlashAttention),
        "model_path" := Str(modelPath)]
  }

  /** The configuration the engine is built from: `supplied` laid over the defaults. */
  function Configured(supplied: Object, modelPath: string): Object
  {
    Defaults(modelPath) + supplied
  }

  /** Every defaulted key is present afterwards; a supplied value is kept
      whatever it is; a missing one gets its default; no other key is added. */
  lemma ConfiguredKeepsSupplied(supplied: Object, modelPath: string)
    ensures var args := Configured(supplied, modelPath);
      && args.Keys == supplied.Keys + DefaultedKeys
      && (forall k :: k in supplied ==> args[k] == supplied[k])
      && ("n_ctx" !in supplied ==> args["n_ctx"] == Int(32768))
      && ("n_gpu_layers" !in supplied ==> args["n_gpu_layers"] == Int(-1))
      && ("flash_attn" !in supplied ==> args["flash_attn"] == Bool(true))
      && ("model_path" !in supplied ==> args["model_path"] == Str(modelPath))
  {
  }

  /** Defaulting a second time changes nothing. */
  lemma ConfiguredIdempotent(supplied: Object, modelPath: string)
    ensures Configured(Configured(supplied, modelPath), modelPath) == Configured(supplied, modelPath)
  {
  }
}
