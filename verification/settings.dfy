/**
 * The pipe's settings ("valves") and the configuration `Pipe.setup` derives from them:
 * which backends can be reached and whether traces go to Langfuse.
 * Python treats an empty string as false, so "set" below means "non-empty".
 */
module Settings {
  import opened Wrappers

  datatype Valves = Valves(
    openaiBaseUrl: string,
    openaiApiKey: string,
    ollamaUrl: string,
    langfuseSecretKey: string,
    langfusePublicKey: string,
    langfuseUrl: string,
    modelPrefix: string,
    enabledModels: string)

  /** The settings in force when no environment variable overrides them. */
  const DefaultValves := Valves(
    "https://api.openai.com/v1", "", "", "", "", "", "ReAct", "gpt-4o,gpt-4o-mini,gpt-4")

  datatype OpenAIConfig = OpenAIConfig(baseUrl: string, apiKey: string)
  datatype OllamaConfig = OllamaConfig(baseUrl: string)
  datatype LangfuseConfig = LangfuseConfig(secretKey: string, publicKey: string, host: string)

  datatype Config = Config(
    openai: Option<OpenAIConfig>,
    ollama: Option<OllamaConfig>,
    langfuse: Option<LangfuseConfig>)

  /** `ValueError("No API keys provided")`. */
  datatype SetupError = NoApiKeys

  /**
   * An OpenAI backend exists iff both its key and its URL are set; an Ollama backend
   * iff its URL is set; setup fails iff neither exists; Langfuse tracing is configured
   * iff all three of its settings are set. Each configuration carries the settings verbatim.
   */
  function Setup(v: Valves): (r: Result<Config, SetupError>)
    ensures r.Failure? <==> (v.openaiApiKey == "" || v.openaiBaseUrl == "") && v.ollamaUrl == ""
    ensures r.Success? ==> r.value.openai.Some? || r.value.ollama.Some?
    ensures r.Success? ==>
      (r.value.openai.Some? <==> v.openaiApiKey != "" && v.openaiBaseUrl != "")
    ensures r.Success? ==> (r.value.ollama.Some? <==> v.ollamaUrl != "")
    ensures r.Success? ==>
      (r.value.langfuse.Some? <==>
        v.langfuseSecretKey != "" && v.langfusePublicKey != "" && v.langfuseUrl != "")
    ensures r.Success? && r.value.openai.Some? ==>
      r.value.openai.value == OpenAIConfig(v.openaiBaseUrl, v.openaiApiKey)
    ensures r.Success? && r.value.ollama.Some? ==>
      r.value.ollama.value == OllamaConfig(v.ollamaUrl)
    ensures r.Success? && r.value.langfuse.Some? ==>
      r.value.langfuse.value == LangfuseConfig(v.langfuseSecretKey, v.langfusePublicKey, v.langfuseUrl)
  {
    var openai := if v.openaiApiKey != "" && v.openaiBaseUrl != ""
      then Some(OpenAIConfig(v.openaiBaseUrl, v.openaiApiKey)) else None;
    var ollama := if v.ollamaUrl != "" then Some(OllamaConfig(v.ollamaUrl)) else None;
    if openai.None? && ollama.None? then Failure(NoApiKeys)
    else
      var langfuse :=
        if v.langfuseSecretKey == "" || v.langfusePublicKey == "" || v.langfuseUrl == ""
        then None
        else Some(LangfuseConfig(v.langfuseSecretKey, v.langfusePublicKey, v.langfuseUrl));
      Success(Config(openai, ollama, langfuse))
  }

  /** Out of the box no API key is set, so setup refuses to start. */
  lemma DefaultsHaveNoBackend()
    ensures Setup(DefaultValves) == Failure(NoApiKeys)
  {
  }

  /** A Langfuse callback handler, tagged with the caller's id when there is one. */
  datatype TraceHandler = TraceHandler(secretKey: string, publicKey: string, host: string, userId: Option<string>)

  /**
   * The callbacks attached to every backend invocation of a turn: one Langfuse handler
   * carrying the configured keys and the caller's id when tracing is configured, none otherwise.
   */
  function TraceHandlers(cfg: Config, userId: Option<string>): (hs: seq<TraceHandler>)
    ensures |hs| <= 1
    ensures |hs| == 1 <==> cfg.langfuse.Some?
    ensures |hs| == 1 ==>
      hs[0].secretKey == cfg.langfuse.value.secretKey
      && hs[0].publicKey == cfg.langfuse.value.publicKey
      && hs[0].host == cfg.langfuse.value.host
      && hs[0].userId == userId
  {
    match cfg.langfuse
    case None => []
    case Some(lf) => [TraceHandler(lf.secretKey, lf.publicKey, lf.host, userId)]
  }
}
