/**
 The two front-ends side by side: the same accepted request, sent to the
 HTTP endpoint or dumped into a job's `input`, reaches the engine with the
 same arguments exactly when the HTTP cap and default change nothing.
 */
module FrontEnds {
  import opened Values
  import App
  import Handle

  /** The job whose `input` is the dumped request. */
  function AsJob(req: App.ChatRequest): Object
  {
    map["input" := Dict(App.Dump(req))]
  }

  /** Both front-ends forward the same map if and only if a given
      `max_tokens` is within the HTTP cap, or, when none is given, the HTTP
      default after capping is the job handler's fixed 4096. */
  lemma FrontEndsAgree(req: App.ChatRequest, defaultMaxTokens: int, maxTokensCap: int)
    ensures Handle.Forwarded(AsJob(req)) == Ok(App.Normalize(req, defaultMaxTokens, maxTokensCap))
            <==> if req.maxTokens.Some? then req.maxTokens.value <= maxTokensCap
                 else App.Min(defaultMaxTokens, maxTokensCap) == Handle.DefaultMaxTokens
  {
    var dumped := App.Dump(req);
    var http := App.Normalize(req, defaultMaxTokens, maxTokensCap);
    assert Truthy(Dict(dumped));
    SetDefaultIsMergeUnder(dumped, "max_tokens", Int(Handle.DefaultMaxTokens));
    var job := Handle.Forwarded(AsJob(req));
    assert job.Ok? && job.value["max_tokens"] == Int(req.maxTokens.GetOr(Handle.DefaultMaxTokens));
    if req.maxTokens.Some? && req.maxTokens.value <= maxTokensCap {
      assert job.value == http;
    } else if req.maxTokens.None? && App.Min(defaultMaxTokens, maxTokensCap) == Handle.DefaultMaxTokens {
      assert job.value == http;
    }
  }

  /** Above the cap the two disagree: HTTP forwards the cap, the job
      handler the requested value. */
  lemma OnlyHttpCaps(req: App.ChatRequest, defaultMaxTokens: int, maxTokensCap: int)
    requires req.maxTokens.Some? && req.maxTokens.value > maxTokensCap
    ensures App.Normalize(req, defaultMaxTokens, maxTokensCap)["max_tokens"] == Int(maxTokensCap)
    ensures Handle.Forwarded(AsJob(req)).Ok?
    ensures Handle.Forwarded(AsJob(req)).value["max_tokens"] == Int(req.maxTokens.value)
  {
    assert Truthy(Dict(App.Dump(req)));
  }
}
