# Request normalisation of a llama.cpp serving adapter

This project models the layer of the llama-cpp adapter that decides what reaches
the inference engine. The adapter has two front-ends.

- The HTTP front-end (`app.py`) validates a body against the `ChatRequest`
  schema. The schema defaults `temperature` to 0.7 and `top_p` to 0.95, and
  bounds a given `max_tokens` to 1..8192. `_inject_defaults` then dumps the
  request without its `None` fields, fills `max_tokens` from `DEFAULT_MAX_TOKENS`,
  and caps it at `MAX_TOKENS_CAP`.
- The serverless job handler (`handle.py`) takes the job's `input`. A missing
  or falsy `input` counts as `{}`. It adds `max_tokens = 4096` only when the
  key is missing, and forwards everything else untouched: no schema, no cap.
- Both front-ends fill four engine-configuration defaults into the parsed
  `LLAMA_ARGS` with `setdefault`: `n_ctx`, `n_gpu_layers`, `flash_attn` and
  `model_path`.
- The HTTP `/ping` endpoint reports the base name of `ARGS["model"]`.

Payloads are `Object`s (`map<string, Value>`), where `Value` is a JSON value. Floats are
opaque decimals that are only defaulted and copied. `DEFAULT_MAX_TOKENS` and
`MAX_TOKENS_CAP` are integer parameters. Modules:

- `Values` has the value type, Python truthiness and `setdefault`.
- `Paths` has the POSIX base name.
- `EngineConfig` has the configuration defaults.
- `App` and `Handle` model the two front-ends.
- `FrontEnds` compares the two front-ends.

The statements `kw["max_tokens"] = ...`, `inp.setdefault(...)` and the
`setdefault` blocks change a dictionary step by step. They are methods
(`App.InjectDefaults`, `Handle.PrepareInput`, `App.LoadConfig`,
`Handle.LoadConfig`). Each method reassigns a local map and is proved equal to
an independently stated function (`App.Normalize`, `Handle.Forwarded`,
`EngineConfig.Configured`). The lemmas are about those functions.

Three consequences of the code are worth stating plainly:

- A `max_tokens` above 8192 is rejected by the schema's upper bound and is
  never clamped (`App.OversizedRequestRejected`). The cap only ever lowers a
  value that is already within 1..8192, or the default.
- The message list may be empty, and a message's role may be any string.
- `/ping` reads the `model` key, not `model_path` (see Findings below).

## Model

| member | source | states |
|---|---|---|
| `Values.Truthy` | handle.py:15 | Python's `bool()`: a value is false exactly when it is null, `false`, zero (integer or float), the empty string, the empty list or the empty dictionary |
| `Values.SetDefault` | handle.py:17 | afterwards the key is bound, to its old value if it had one and to the default otherwise; no other key is added or changed |
| `Values.SetDefaultIdempotent` | handle.py:17 | a second `setdefault` on the same key, with any default, leaves the dictionary unchanged |
| `Values.SetDefaultIsMergeUnder` | handle.py:8-11 | `setdefault` equals merging the dictionary over a one-key default map, so supplied values always win |
| `Paths.Basename` | app.py:69 | `os.path.basename`: the result is a suffix of the path, contains no `/`, and is preceded by a `/` whenever it is shorter than the path |
| `Paths.BasenameOfName` | app.py:69 | a path with no `/` is its own base name |
| `Paths.BasenameOfJoin` | app.py:69 | the base name of `dir + "/" + name` is `name`, for every directory |
| `Paths.BasenameUnique` | app.py:69 | the three facts `Basename` promises determine the base name uniquely |
| `EngineConfig.Defaults` | app.py:22-25 | the defaults map binds exactly `n_ctx`, `n_gpu_layers`, `flash_attn` and `model_path` |
| `EngineConfig.ConfiguredKeepsSupplied` | app.py:22-25 | after defaulting, all four keys are present; every supplied value is kept; missing ones get 32768, -1, true and the model path; no other key appears |
| `EngineConfig.ConfiguredIdempotent` | handle.py:8-11 | defaulting an already defaulted configuration changes nothing |
| `App.LoadConfig` | app.py:22-25 | the four successive `setdefault` calls produce the supplied map laid over the defaults, with this front-end's bare-file-name model path |
| `App.ParseEach` | app.py:37 | a list validates exactly when every element does; the result keeps length and order, element by element |
| `App.ParseMessages` | app.py:32-37 | the message field is accepted exactly when it is present, a list, and every element is an object with string `role` and `content`; the result has one message per element, in order, with that element's role and content |
| `App.ParseStop` | app.py:41 | an absent or null `stop` is `None`; a list is accepted exactly when all its elements are strings, and yields them in order; anything else is rejected |
| `App.ParseRequest` | app.py:32-41 | a body is accepted exactly when: `messages` is a list of objects with string `role` and `content`; `max_tokens` is absent, null or an integer in 1..8192; `temperature` and `top_p` are absent, null or numbers; `stop` is absent, null or a list of strings. An accepted request holds each message's role and content in order, the given `max_tokens`, and the given `stop` strings in order. Absent `temperature`/`top_p` become 0.7/0.95; explicit null keeps them `None`; a given number is kept |
| `App.DumpMessages` | app.py:56 | the dumped message list is read back by the schema as the same messages, in order |
| `App.DumpStrings` | app.py:56 | the dumped stop list is read back by the schema as the same strings, in order |
| `App.Dump` | app.py:56 | `model_dump(exclude_none=True)` has `messages` and, for each optional field, a key exactly when the field is not `None`, bound to its value; no other key and no null value |
| `App.DumpParseRoundTrip` | app.py:36-41 | a request whose `max_tokens` is in range and whose sampling fields are set validates back to itself after dumping |
| `App.Normalize` | app.py:52-60 | forwarded `max_tokens` is an integer, never above the cap; it is min(default, cap) when absent, the requested value when that is within the cap, and the cap otherwise; the keys are the dumped keys plus `max_tokens`; every other field is copied unchanged; no value is null |
| `App.InjectDefaults` | app.py:52-60 | dumping the request and then overwriting `max_tokens` with min(requested or default, cap) yields exactly `Normalize` |
| `App.NormalizedFields` | app.py:56-59 | the engine gets `temperature`, `top_p` and `stop` exactly when the request sets them, with their values, and the messages as dumped; no other key |
| `App.ForwardedMaxTokens` | app.py:38 | for an accepted body, forwarded `max_tokens` is at most the cap; it is min(default, cap) when absent or null; a given value is an integer in 1..8192 and is forwarded as min(value, cap) |
| `App.SamplingDefaults` | app.py:39-41 | omitting `temperature`/`top_p` forwards 0.7/0.95; sending null drops them; `stop` is forwarded only when given |
| `App.MinimalRequestScenario` | app.py:52-60 | one user message "hi", default and cap 4096, forwards messages, 4096, 0.7 and 0.95 and nothing else |
| `App.OversizedRequestRejected` | app.py:38 | a body whose `max_tokens` is above 8192 or below 1 is rejected, whatever its messages |
| `App.Health` | app.py:67-69 | status is "ok"; the model is the base name of `ARGS["model"]`, or "" when the key is missing; a non-string model fails |
| `App.HealthIgnoresModelPath` | app.py:69 | with no `model` key the report is blank, although `model_path` is always set after defaulting |
| `App.HealthNamesUnloadedModel` | app.py:14-28 | with a `model` key naming `dir/name` and no `model_path`, `/ping` reports `name` while the engine is built from the default file |
| `App.LoadedModelHealth` | app.py:69 | corrected report: status "ok" and the base name of `ARGS["model_path"]`; a non-string path fails |
| `App.LoadedModelHealthNamesEngineFile` | app.py:25-28 | after defaulting, the corrected report succeeds and names the base name of the engine's file, which is the default file when no path is supplied |
| `App.DefaultModelPathIsName` | app.py:25 | the HTTP front-end's default model path is its own base name |
| `Handle.LoadConfig` | handle.py:8-11 | the four successive `setdefault` calls produce the supplied map laid over the defaults, with the `/models/...` model path |
| `Handle.Forwarded` | handle.py:14-19 | a missing or falsy input forwards exactly `{max_tokens: 4096}`; a truthy non-dictionary fails, and nothing else does; `max_tokens` is always present; input keys are kept with their values; `max_tokens` is the only possible addition |
| `Handle.PrepareInput` | handle.py:14-19 | taking `input` (or `{}`) and calling `setdefault("max_tokens", 4096)` yields exactly `Forwarded` |
| `Handle.GivenMaxTokensUntouched` | handle.py:17 | a job input that has `max_tokens` is forwarded exactly as given, with no bound or cap |
| `Handle.ForwardedIdempotent` | handle.py:17 | submitting the forwarded map again as a job's input forwards the same map |
| `FrontEnds.FrontEndsAgree` | app.py:58-59 | a dumped request sent as a job is forwarded identically to the HTTP path if and only if: a given `max_tokens` is within the cap, or, when none is given, min(default, cap) is 4096 |
| `FrontEnds.OnlyHttpCaps` | app.py:59 | above the cap, HTTP forwards the cap while the job handler forwards the requested value |

## Left out

- Building the engine with `Llama(**args)` and calling `create_chat_completion` are calls into a library outside this model. `InjectDefaults` and `PrepareInput` return the keyword arguments they would pass. The engine may reject unknown keywords; that is not modelled.
- Offloading the engine call with `asyncio.to_thread` is about concurrency, which this model does not cover.
- The following framework plumbing is left out: FastAPI routing, the HTTP status mapping of errors, `uvicorn.run` and `runpod.serverless.start`. FastAPI answers a schema violation with 422 before `chat` runs. `ParseRequest` returning `Err` stands for that.
- Environment reads and `json.loads` of `LLAMA_ARGS` happen at startup. The parsed object is an input. `DEFAULT_MAX_TOKENS` and `MAX_TOKENS_CAP` are integer parameters. A malformed variable is a startup failure and is not modelled.
- Floating-point semantics are left out. `temperature` and `top_p` are decimals that are only defaulted and copied.
- ParseRequest: models only strict JSON types, plus integers accepted as floats. It reports only the first offending field. pydantic's other lax coercions are not modelled, for example numeric strings, or integral floats accepted as `max_tokens`. pydantic also collects every error.
- Handle.PrepareInput: `setdefault` mutates the caller's `event["input"]` dictionary in place. That is aliasing, and the model does not capture it. The model returns the forwarded map only.
- Model listing, stats, fetch, delete and switch are not part of this model. These commands do not appear in `app.py` or `handle.py`.

## Findings

| source | as written | input that shows it | evidently intended | confidence | as-written member | corrected member |
|---|---|---|---|---|---|---|
| app.py:69 | `/ping` reports the base name of `ARGS["model"]`. The engine is built from `ARGS["model_path"]`, which a `setdefault` always fills | `LLAMA_ARGS={"model":"/models/DeepSeek-R1-8B.gguf"}`, as in the comment at app.py:14. `/ping` reports `DeepSeek-R1-8B.gguf`, but the engine loads `DeepSeek-R1-0528-Qwen3-8B-Q8_0.gguf` | report the base name of `ARGS["model_path"]`, the file actually loaded | medium, not executed | `App.HealthNamesUnloadedModel` | `App.LoadedModelHealthNamesEngineFile` |
