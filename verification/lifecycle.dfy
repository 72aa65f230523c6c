/** The process-wide model state (`model`, `tokenizer`, `model_loading`,
    `model_load_error`) and the handlers that read or change it outside the
    prediction endpoint: the lazy loader, the health report and the warmup. */
module Lifecycle {
  import opened Wrappers
  import opened Labels

  /** An opaque tokenizer handle; `source` names the artifact it came from. */
  datatype Tokenizer = Tokenizer(source: string)

  /** An opaque classification-model handle, reduced to what the service
      reads of it: the label table of its configuration. */
  datatype Model = Model(id2label: LabelTable)

  /** The four module-level globals. */
  datatype State = State(model: Option<Model>, tokenizer: Option<Tokenizer>,
                         loading: bool, loadError: Option<string>)

  /** The globals at process start: nothing loaded, nothing loading, no error. */
  const Initial: State := State(None, None, false, None)

  /** The repository identifier reported by the health endpoint and loaded by
      the loader. */
  const ModelName: string := "wncelrcn/mindmap-MiniLM-goemotions-v1"
  const ModelType: string := "multi-label emotion classification"

  /** `model is not None and tokenizer is not None`. */
  predicate Loaded(s: State) {
    s.model.Some? && s.tokenizer.Some?
  }

  /** Python truthiness of `model_load_error`: a recorded error that is the
      empty string reads as no error at all. */
  predicate ErrorRecorded(s: State) {
    s.loadError.Some? && s.loadError.value != ""
  }

  /** How far one download-and-build attempt gets. The attempt itself (network,
      disk, library code) is outside the model; which of these happens is an
      input to the transition. */
  datatype LoadOutcome =
    | FailBeforeTokenizer(error: string)                       // tokenizer download raised
    | FailAfterTokenizer(tok: Tokenizer, error: string)        // tokenizer set, model download raised
    | FailAfterModel(tok: Tokenizer, m: Model, error: string)  // both set, a later step raised
    | Succeed(tok: Tokenizer, m: Model)

  /** The state after a load step and the message of the exception it
      re-raises, if any. */
  datatype LoadStep = LoadStep(after: State, raised: Option<string>)

  /** The first two assignments of a load that goes ahead: the flag is set and
      any earlier error is cleared before anything is fetched. */
  function StartLoad(s: State): (r: State)
    ensures r.loading && r.loadError == None
    ensures r.model == s.model && r.tokenizer == s.tokenizer
  {
    s.(loading := true, loadError := None)
  }

  /** The rest of a load that went ahead: the handles assigned up to the point
      of failure, the error recorded and re-raised on failure, the label table
      corrected on success, and the flag cleared on every path. */
  function FinishLoad(s: State, o: LoadOutcome): (r: LoadStep)
    ensures !r.after.loading
    ensures r.raised.None? <==> o.Succeed?
    ensures r.raised.Some? ==> r.after.loadError == r.raised && r.raised.value == o.error
    ensures o.Succeed? ==> Loaded(r.after) && r.after.loadError == s.loadError
                           && r.after.tokenizer == Some(o.tok)
                           && r.after.model == Some(Model(FixLabelTable(o.m.id2label)))
    ensures o.FailBeforeTokenizer? ==> r.after.model == s.model && r.after.tokenizer == s.tokenizer
    ensures o.FailAfterTokenizer? ==> r.after.model == s.model && r.after.tokenizer == Some(o.tok)
    ensures o.FailAfterModel? ==> r.after.model == Some(o.m) && r.after.tokenizer == Some(o.tok)
  {
    match o
    case FailBeforeTokenizer(e) =>
      LoadStep(s.(loading := false, loadError := Some(e)), Some(e))
    case FailAfterTokenizer(t, e) =>
      LoadStep(s.(tokenizer := Some(t), loading := false, loadError := Some(e)), Some(e))
    case FailAfterModel(t, m, e) =>
      LoadStep(s.(tokenizer := Some(t), model := Some(m), loading := false, loadError := Some(e)), Some(e))
    case Succeed(t, m) =>
      LoadStep(s.(tokenizer := Some(t), model := Some(Model(FixLabelTable(m.id2label))), loading := false), None)
  }

  /** `load_model_async`: returns at once when both handles are present or a
      load is already in flight; otherwise loads, using `o` as the attempt's
      outcome. */
  function LoadModel(s: State, o: LoadOutcome): (r: LoadStep)
    ensures Loaded(s) || s.loading ==> r == LoadStep(s, None)
    ensures !Loaded(s) && !s.loading ==>
              && !r.after.loading
              && (r.raised.None? <==> o.Succeed?)
              && (r.raised.None? ==> Loaded(r.after) && r.after.loadError == None)
              && (r.raised.Some? ==> r.after.loadError == r.raised)
    ensures WouldLoad(s) ==> r == FinishLoad(StartLoad(s), o)
    ensures WouldLoad(s) && !o.Succeed? ==> r.raised == Some(o.error) && r.after.loadError == Some(o.error)
    ensures WouldLoad(s) && o.FailBeforeTokenizer? ==>
              r.after.model == s.model && r.after.tokenizer == s.tokenizer
    ensures WouldLoad(s) && o.FailAfterTokenizer? ==>
              r.after.model == s.model && r.after.tokenizer == Some(o.tok)
    ensures WouldLoad(s) && o.FailAfterModel? ==>
              r.after.model == Some(o.m) && r.after.tokenizer == Some(o.tok)
  {
    if Loaded(s) then LoadStep(s, None)
    else if s.loading then LoadStep(s, None)
    else FinishLoad(StartLoad(s), o)
  }

  /** Whether `load_model_async` would fetch anything from `s`. */
  predicate WouldLoad(s: State) {
    !Loaded(s) && !s.loading
  }

  /** A load that does not go ahead ignores the attempt's outcome: with the
      model in place, no further download ever happens. */
  lemma LoadIgnoresOutcomeWhenSkipped(s: State, o1: LoadOutcome, o2: LoadOutcome)
    requires !WouldLoad(s)
    ensures LoadModel(s, o1) == LoadModel(s, o2) == LoadStep(s, None)
  {
  }

  /** Idempotence: after a successful load, loading again changes nothing and
      raises nothing, whatever the attempt would have done. */
  lemma LoadIdempotent(s: State, o: LoadOutcome, o2: LoadOutcome)
    requires o.Succeed?
    ensures LoadModel(LoadModel(s, o).after, o2) == LoadStep(LoadModel(s, o).after, None)
  {
  }

  /** The tokenizer is always assigned before the model, so a model handle
      never exists without a tokenizer; and between handlers no load is in
      flight. Every state reachable from `Initial` satisfies this. */
  predicate Quiescent(s: State) {
    (s.model.Some? ==> s.tokenizer.Some?) && !s.loading
  }

  /** The process starts quiescent, with nothing loaded and no error. */
  lemma InitialIsQuiescent()
    ensures Quiescent(Initial) && !Loaded(Initial) && !ErrorRecorded(Initial)
  {
  }

  /** A call to the loader ends quiescent again. */
  lemma LoadKeepsQuiescent(s: State, o: LoadOutcome)
    requires Quiescent(s)
    ensures Quiescent(LoadModel(s, o).after)
  {
  }

  /** A load that fails after the tokenizer is assigned leaves the tokenizer
      set, the model unset and the error recorded. */
  lemma PartialLoadFailure(s: State, t: Tokenizer, e: string)
    requires WouldLoad(s) && s.model.None?
    ensures var r := LoadModel(s, FailAfterTokenizer(t, e)).after;
            r.tokenizer == Some(t) && r.model.None? && r.loadError == Some(e) && !Loaded(r)
  {
  }

  /** The `/api/health` payload. */
  datatype Health = Health(status: string, modelStatus: string, modelName: string, modelType: string)

  /** `health_check`: a read-only projection of the globals. A recorded error
      wins over everything else; otherwise the service is healthy and the
      model is reported loading, loaded or not loaded, in that order. */
  function HealthCheck(s: State): (h: Health)
    ensures h.status == "unhealthy" <==> ErrorRecorded(s)
    ensures h.status == "healthy" <==> !ErrorRecorded(s)
    ensures ErrorRecorded(s) ==> h.modelStatus == "error: " + s.loadError.value
    ensures h.modelStatus == "loading" <==> !ErrorRecorded(s) && s.loading
    ensures h.modelStatus == "loaded" <==> !ErrorRecorded(s) && !s.loading && Loaded(s)
    ensures h.modelStatus == "not_loaded" <==> !ErrorRecorded(s) && !s.loading && !Loaded(s)
    ensures h.modelName == ModelName && h.modelType == ModelType
  {
    var (status, modelStatus) :=
      if ErrorRecorded(s) then ("unhealthy", "error: " + s.loadError.value)
      else if s.loading then ("healthy", "loading")
      else if Loaded(s) then ("healthy", "loaded")
      else ("healthy", "not_loaded");
    assert ErrorRecorded(s) ==> |modelStatus| > 7 && modelStatus[0] == 'e';
    Health(status, modelStatus, ModelName, ModelType)
  }

  /** After a successful load the service reports itself healthy and loaded. */
  lemma HealthAfterSuccessfulLoad(s: State, t: Tokenizer, m: Model)
    requires WouldLoad(s)
    ensures HealthCheck(LoadModel(s, Succeed(t, m)).after).status == "healthy"
    ensures HealthCheck(LoadModel(s, Succeed(t, m)).after).modelStatus == "loaded"
  {
  }

  /** After a failed load with a non-empty message the service reports itself
      unhealthy with that message, whatever handles were left behind. */
  lemma HealthAfterFailedLoad(s: State, o: LoadOutcome)
    requires WouldLoad(s) && !o.Succeed? && o.error != ""
    ensures HealthCheck(LoadModel(s, o).after) ==
            Health("unhealthy", "error: " + o.error, ModelName, ModelType)
  {
  }

  /** An exception whose text is empty is recorded as "", which the health
      report cannot tell from no error: it reports a healthy service whose
      model is not loaded. */
  lemma EmptyErrorReadsHealthy(s: State)
    requires WouldLoad(s) && s.model.None?
    ensures HealthCheck(LoadModel(s, FailBeforeTokenizer("")).after) ==
            Health("healthy", "not_loaded", ModelName, ModelType)
  {
  }

  /** The `/api/warmup` reply. */
  datatype WarmupReply = WarmupReply(message: string, status: string)
  datatype WarmupStep = WarmupStep(after: State, reply: WarmupReply)

  /** `warmup_model`: reports "ready" or "loading" without touching the state
      when the model is present or a load is in flight; otherwise runs the
      loader (which retries even after an earlier failure) and reports its
      outcome. */
  function Warmup(s: State, o: LoadOutcome): (r: WarmupStep)
    ensures Loaded(s) ==> r == WarmupStep(s, WarmupReply("Model already loaded", "ready"))
    ensures !Loaded(s) && s.loading ==> r == WarmupStep(s, WarmupReply("Model is currently loading", "loading"))
    ensures WouldLoad(s) ==> r.after == LoadModel(s, o).after
    ensures WouldLoad(s) ==> (r.reply.status == "ready" <==> o.Succeed?)
    ensures WouldLoad(s) && o.Succeed? ==> r.reply == WarmupReply("Model loaded successfully", "ready")
    ensures WouldLoad(s) && !o.Succeed? ==>
              r.reply == WarmupReply("Failed to load model: " + o.error, "error")
              && r.after.loadError == Some(o.error)
    ensures r.reply.status == "ready" ==> Loaded(r.after)
    ensures r.reply.status in {"ready", "loading", "error"}
  {
    if Loaded(s) then
      WarmupStep(s, WarmupReply("Model already loaded", "ready"))
    else if s.loading then
      WarmupStep(s, WarmupReply("Model is currently loading", "loading"))
    else
      var step := LoadModel(s, o);
      match step.raised
      case None => WarmupStep(step.after, WarmupReply("Model loaded successfully", "ready"))
      case Some(e) => WarmupStep(step.after, WarmupReply("Failed to load model: " + e, "error"))
  }

  /** Warming up twice: the second call finds the model in place, reports
      "ready" and leaves the state alone. */
  lemma WarmupIdempotent(s: State, o: LoadOutcome, o2: LoadOutcome)
    requires (Warmup(s, o).reply.status == "ready")
    ensures Warmup(Warmup(s, o).after, o2) ==
            WarmupStep(Warmup(s, o).after, WarmupReply("Model already loaded", "ready"))
  {
  }

  /** Warmup after a failed load retries: the stale error is cleared by the
      new attempt, and a successful retry leaves a healthy, loaded service. */
  lemma WarmupRetriesAfterFailure(s: State, t: Tokenizer, m: Model)
    requires WouldLoad(s) && ErrorRecorded(s)
    ensures var r := Warmup(s, Succeed(t, m));
            r.reply.status == "ready" && !ErrorRecorded(r.after)
            && HealthCheck(r.after).modelStatus == "loaded"
  {
  }

  /** A warmup ends quiescent again. */
  lemma WarmupKeepsQuiescent(s: State, o: LoadOutcome)
    requires Quiescent(s)
    ensures Quiescent(Warmup(s, o).after)
  {
  }
}
