/**
 * One turn of the pipe: the host's task marker and tool list decide whether the turn is
 * skipped, answered by one blocking call, streamed straight through, or run through the
 * tool-event loop. What the backend and the agent produce is given as input.
 */
module Turn {
  import opened Wrappers
  import opened Settings
  import opened ToolEvents
  import ModelId

  /** Which backend serves a model, as the earlier model listing recorded it. */
  datatype Backend = OpenAI | Ollama

  datatype TurnError =
    | SetupFailed(cause: SetupError)      // no backend is configured
    | UnknownModel(id: string)            // the model id was not listed
    | BackendNotConfigured(backend: Backend)
    | ToolNotStarted(name: string)        // a tool end for a tool that is not active
    | BackendFailed                       // the backend call or its stream raised

  /** The backend call the turn makes: which backend, which model, its settings and trace callbacks. */
  datatype Invocation = Invocation(
    backend: Backend,
    modelId: string,
    endpoint: string,
    apiKey: Option<string>,
    callbacks: seq<TraceHandler>)

  /**
   * The backend model behind a host model id: the id loses its first dot-separated segment,
   * must have been listed, and its backend must be configured. Every call carries the
   * Langfuse handler when tracing is configured.
   */
  function SelectModel(cfg: Config, sources: map<string, Backend>, model: string, userId: Option<string>)
    : (r: Result<Invocation, TurnError>)
    ensures ModelId.StripProvider(model) !in sources ==> r == Failure(UnknownModel(ModelId.StripProvider(model)))
    ensures r.Success? ==>
      && r.value.modelId == ModelId.StripProvider(model)
      && r.value.modelId in sources
      && r.value.backend == sources[r.value.modelId]
      && r.value.callbacks == TraceHandlers(cfg, userId)
    ensures r.Success? && r.value.backend == OpenAI ==>
      cfg.openai.Some? && r.value.endpoint == cfg.openai.value.baseUrl && r.value.apiKey == Some(cfg.openai.value.apiKey)
    ensures r.Success? && r.value.backend == Ollama ==>
      cfg.ollama.Some? && r.value.endpoint == cfg.ollama.value.baseUrl && r.value.apiKey == None
    ensures r.Failure? && ModelId.StripProvider(model) in sources ==>
      r == Failure(BackendNotConfigured(sources[ModelId.StripProvider(model)]))
    ensures
      && ModelId.StripProvider(model) in sources
      && (sources[ModelId.StripProvider(model)] == OpenAI ==> cfg.openai.Some?)
      && (sources[ModelId.StripProvider(model)] == Ollama ==> cfg.ollama.Some?)
      ==> r.Success?
  {
    var id := ModelId.StripProvider(model);
    if id !in sources then Failure(UnknownModel(id))
    else
      var handlers := TraceHandlers(cfg, userId);
      match sources[id]
      case OpenAI =>
        if cfg.openai.None? then Failure(BackendNotConfigured(OpenAI))
        else Success(Invocation(OpenAI, id, cfg.openai.value.baseUrl, Some(cfg.openai.value.apiKey), handlers))
      case Ollama =>
        if cfg.ollama.None? then Failure(BackendNotConfigured(Ollama))
        else Success(Invocation(Ollama, id, cfg.ollama.value.baseUrl, None, handlers))
  }

  const FunctionCallingTask := "function_calling"
  const TitleGenerationTask := "title_generation"

  /** The host's request, reduced to what steers the turn. */
  datatype Request = Request(model: string, task: Option<string>, hasTools: bool, userId: Option<string>)

  /**
   * What the backend would produce for this turn: the complete reply of a blocking call,
   * the chunks of a plain stream, and the agent's events when tools are available. When
   * `broken` holds, the call raises: the blocking call returns nothing, and a stream raises
   * after the chunks or events listed.
   */
  datatype BackendOutput = BackendOutput(completion: string, chunks: seq<string>, events: seq<Event>, broken: bool)

  datatype TurnResult = TurnResult(invocation: Option<Invocation>, out: seq<Action>, error: Option<TurnError>)

  predicate IsNotification(a: Action) {
    a.Status? || a.Citation?
  }

  predicate UsesToolLoop(req: Request) {
    req.task != Some(FunctionCallingTask) && req.task != Some(TitleGenerationTask) && req.hasTools
  }

  function RunTurn(v: Valves, sources: map<string, Backend>, req: Request, backend: BackendOutput, order: seq<string>)
    : (r: TurnResult)
    requires Scan(backend.events).error.None? ==> Enumerates(order, Scan(backend.events).state.active)
    ensures req.task == Some(FunctionCallingTask) ==> r == TurnResult(None, [], None)
    ensures req.task != Some(FunctionCallingTask) && Setup(v).Failure? ==>
      r == TurnResult(None, [], Some(SetupFailed(NoApiKeys)))
    ensures r.invocation.Some? <==>
      req.task != Some(FunctionCallingTask) && Setup(v).Success?
      && SelectModel(Setup(v).value, sources, req.model, req.userId).Success?
    ensures r.invocation.Some? ==>
      Setup(v).Success? && r.invocation.value == SelectModel(Setup(v).value, sources, req.model, req.userId).value
    ensures
      && req.task != Some(FunctionCallingTask) && Setup(v).Success?
      && SelectModel(Setup(v).value, sources, req.model, req.userId).Failure?
      ==> r == TurnResult(None, [], Some(SelectModel(Setup(v).value, sources, req.model, req.userId).error))
    ensures r.invocation.None? ==> r.out == []
    ensures r.invocation.Some? && req.task == Some(TitleGenerationTask) ==>
      if backend.broken then r.out == [] && r.error == Some(BackendFailed)
      else r.out == [Yield(backend.completion)] && r.error.None?
    ensures r.invocation.Some? && req.task != Some(TitleGenerationTask) && !req.hasTools ==>
      && (r.error.Some? <==> backend.broken)
      && (backend.broken ==> r.error == Some(BackendFailed))
      && |r.out| == |backend.chunks|
      && forall k :: 0 <= k < |r.out| ==> r.out[k] == Yield(backend.chunks[k])
    ensures r.invocation.Some? && UsesToolLoop(req) && !backend.broken ==>
      && r.out == ToolLoop(backend.events, order).out
      && (r.error.Some? <==> ToolLoop(backend.events, order).Raised?)
    ensures r.invocation.Some? && UsesToolLoop(req) && backend.broken ==>
      && r.out == InterruptedToolLoop(backend.events).out
      && r.error.Some?
    ensures r.invocation.Some? && UsesToolLoop(req) && Scan(backend.events).error.Some? ==>
      r.error == Some(ToolNotStarted(Scan(backend.events).error.value))
    ensures r.invocation.Some? && UsesToolLoop(req) && backend.broken && Scan(backend.events).error.None? ==>
      r.error == Some(BackendFailed)
    ensures r.error.Some? && r.error.value.ToolNotStarted? ==> UsesToolLoop(req)
  {
    if req.task == Some(FunctionCallingTask) then TurnResult(None, [], None)
    else match Setup(v)
      case Failure(e) => TurnResult(None, [], Some(SetupFailed(e)))
      case Success(cfg) =>
        match SelectModel(cfg, sources, req.model, req.userId)
        case Failure(e) => TurnResult(None, [], Some(e))
        case Success(inv) =>
          if req.task == Some(TitleGenerationTask) then
            if backend.broken then TurnResult(Some(inv), [], Some(BackendFailed))
            else TurnResult(Some(inv), [Yield(backend.completion)], None)
          else if !req.hasTools then
            TurnResult(Some(inv), seq(|backend.chunks|, k requires 0 <= k < |backend.chunks| => Yield(backend.chunks[k])),
                       if backend.broken then Some(BackendFailed) else None)
          else
            match if backend.broken then InterruptedToolLoop(backend.events) else ToolLoop(backend.events, order)
            case Completed(out) => TurnResult(Some(inv), out, None)
            case Raised(out, name) => TurnResult(Some(inv), out, Some(ToolNotStarted(name)))
            case Interrupted(out) => TurnResult(Some(inv), out, Some(BackendFailed))
  }

  /** Status and citation notifications are sent only by turns that run the tool loop. */
  lemma NotificationsOnlyFromToolLoop(v: Valves, sources: map<string, Backend>, req: Request, backend: BackendOutput, order: seq<string>)
    requires Scan(backend.events).error.None? ==> Enumerates(order, Scan(backend.events).state.active)
    ensures !UsesToolLoop(req) ==>
      forall k :: 0 <= k < |RunTurn(v, sources, req, backend, order).out| ==>
        !IsNotification(RunTurn(v, sources, req, backend, order).out[k])
  {
  }
}
