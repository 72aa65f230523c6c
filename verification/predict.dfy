/** The `/api/predict` handler: the lazy-load gate, the blank-text check, and
    the scoring of the model's output. The forward pass (tokenizer, model,
    sigmoid) is outside the model: its result, one probability per output or
    a failure, is an input. */
module Predict {
  import opened Wrappers
  import opened PyText
  import opened Labels
  import opened Scoring
  import opened Lifecycle

  /** The `HTTPException`s the handler raises. */
  datatype PredictError =
    | ModelFailedToLoad(reason: string)  // an earlier load recorded an error; no retry
    | FailedToLoadModel(reason: string)  // the load started by this request raised
    | EmptyText                          // the text is blank
    | PredictionFailed                   // the inference step raised; its message comes from library code

  /** The default of the `threshold` query parameter. */
  const DefaultThreshold: real := 0.05

  /** The HTTP status code each error is reported with. */
  function StatusCode(e: PredictError): (code: int)
    ensures code == 400 <==> e.EmptyText?
    ensures code == 500 <==> !e.EmptyText?
  {
    match e
    case EmptyText => 400
    case _ => 500
  }

  /** The `EmotionResponse` body. */
  datatype Response = Response(success: bool, emotions: seq<Emotion>, textAnalyzed: string)

  datatype PredictStep = PredictStep(after: State, result: Result<Response, PredictError>)

  /** The scoring step, run once the gate and the text check have passed.
      `forward` is what tokenizing `text` and running the model produced:
      the per-label probabilities, or `None` when that raised. Calling an
      absent tokenizer or model raises too. */
  function Infer(s: State, text: string, threshold: real, forward: Option<seq<real>>): (r: Result<Response, PredictError>)
    ensures r.Ok? <==> Loaded(s) && forward.Some? && SelectLabels(s.model.value.id2label, |forward.value|).Some?
    ensures r.Err? ==> r.error == PredictionFailed
    ensures r.Ok? ==> r.value.success && r.value.textAnalyzed == text
    ensures r.Ok? ==>
              var labels := SelectLabels(s.model.value.id2label, |forward.value|).value;
              var probs := forward.value;
              && (forall k :: 0 <= k < |r.value.emotions| ==>
                    KeptEmotion(r.value.emotions[k], probs, labels, threshold))
              && (forall j :: Kept(probs, labels, threshold, j) ==>
                    Emotion(labels[j], probs[j]) in r.value.emotions)
              && (forall k, l :: 0 <= k < l < |r.value.emotions| ==>
                    r.value.emotions[k].score >= r.value.emotions[l].score)
    ensures r.Ok? ==>
              r.value.emotions == ToEmotions(Rank(forward.value, SelectLabels(s.model.value.id2label, |forward.value|).value, threshold))
  {
    if !Loaded(s) || forward.None? then Err(PredictionFailed)
    else
      var probs := forward.value;
      match SelectLabels(s.model.value.id2label, |probs|)
      case None => Err(PredictionFailed)
      case Some(labels) =>
        var ranked := Rank(probs, labels, threshold);
        var emotions := ToEmotions(ranked);
        EmotionsReportKeptPositions(probs, labels, threshold);
        Ok(Response(true, emotions, text))
  }

  /** The load gate lets the request through: the handles were present, or no
      error was recorded and the loader raised nothing. */
  predicate GatePasses(s: State, o: LoadOutcome) {
    Loaded(s) || (!ErrorRecorded(s) && LoadModel(s, o).raised.None?)
  }

  /** `predict_emotions`: when a handle is missing, fail at once if an error
      is recorded, otherwise run the loader with outcome `o`; then reject
      blank text; then score. */
  function Predict(s: State, text: string, threshold: real, o: LoadOutcome, forward: Option<seq<real>>): (r: PredictStep)
    ensures !Loaded(s) && ErrorRecorded(s) ==>
              r == PredictStep(s, Err(ModelFailedToLoad(s.loadError.value)))
    ensures Loaded(s) ==> r.after == s
    ensures r.after == s || (WouldLoad(s) && r.after == LoadModel(s, o).after)
    ensures !Loaded(s) && !ErrorRecorded(s) ==> r.after == LoadModel(s, o).after
    ensures (r.result.Err? && r.result.error == EmptyText) <==> GatePasses(s, o) && Blank(text)
    ensures !GatePasses(s, o) ==> r.result.Err? && !r.result.error.EmptyText? && !r.result.error.PredictionFailed?
    ensures r.result.Ok? ==> r.result.value.textAnalyzed == text && !Blank(text) && Loaded(r.after)
    ensures r.result.Ok? ==> r.result == Infer(r.after, text, threshold, forward)
    ensures GatePasses(s, o) && !Blank(text) ==> r.result == Infer(r.after, text, threshold, forward)
    ensures WouldLoad(s) && !ErrorRecorded(s) && !o.Succeed? ==>
              r.result == Err(FailedToLoadModel(o.error))
  {
    if !Loaded(s) && ErrorRecorded(s) then
      PredictStep(s, Err(ModelFailedToLoad(s.loadError.value)))
    else
      var step := if Loaded(s) then LoadStep(s, None) else LoadModel(s, o);
      if step.raised.Some? then
        PredictStep(step.after, Err(FailedToLoadModel(step.raised.value)))
      else if Strip(text) == [] then
        StripEmptyIffBlank(text);
        PredictStep(step.after, Err(EmptyText))
      else
        StripEmptyIffBlank(text);
        PredictStep(step.after, Infer(step.after, text, threshold, forward))
  }

  /** A recorded error poisons the endpoint: until something else clears it,
      every prediction fails with that error, no load is attempted and the
      state is untouched, whatever the text or the attempt would do. */
  lemma NoRetryAfterRecordedError(s: State, text: string, threshold: real,
                                  o1: LoadOutcome, o2: LoadOutcome, f1: Option<seq<real>>, f2: Option<seq<real>>)
    requires !Loaded(s) && ErrorRecorded(s)
    ensures Predict(s, text, threshold, o1, f1) == Predict(s, "", 0.0, o2, f2)
    ensures StatusCode(Predict(s, text, threshold, o1, f1).result.error) == 500
  {
  }

  /** The blank-text check comes after the load gate: blank text sent while
      an error is recorded gets the load error, not the 400. */
  lemma BlankTextCheckedAfterGate(s: State, text: string, threshold: real, o: LoadOutcome, forward: Option<seq<real>>)
    requires !Loaded(s) && ErrorRecorded(s) && Blank(text)
    ensures Predict(s, text, threshold, o, forward).result.Err?
    ensures Predict(s, text, threshold, o, forward).result.error != EmptyText
  {
  }

  /** Blank text on a loaded model is rejected with 400 and nothing changes. */
  lemma BlankTextRejected(s: State, text: string, threshold: real, o: LoadOutcome, forward: Option<seq<real>>)
    requires Loaded(s) && Blank(text)
    ensures Predict(s, text, threshold, o, forward) == PredictStep(s, Err(EmptyText))
    ensures StatusCode(EmptyText) == 400
  {
  }

  /** There is no waiting for a load in flight: a request that finds a load
      running returns from the loader at once and fails when it calls the
      missing handles. */
  lemma PredictDuringLoadFails(s: State, text: string, threshold: real, o: LoadOutcome, forward: Option<seq<real>>)
    requires !Loaded(s) && s.loading && !ErrorRecorded(s) && !Blank(text)
    ensures Predict(s, text, threshold, o, forward) == PredictStep(s, Err(PredictionFailed))
  {
    StripEmptyIffBlank(text);
  }

  /** The same request with blank text gets the 400 instead: the loader
      returns at once and the text check runs before the handles are used. */
  lemma BlankTextDuringLoadRejected(s: State, text: string, threshold: real, o: LoadOutcome, forward: Option<seq<real>>)
    requires !Loaded(s) && s.loading && !ErrorRecorded(s) && Blank(text)
    ensures Predict(s, text, threshold, o, forward) == PredictStep(s, Err(EmptyText))
  {
    StripEmptyIffBlank(text);
  }

  /** The first request on a fresh process loads the model; when the load
      succeeds, the forward pass yields probabilities and the label choice
      raises nothing, the request is scored with the corrected label table
      and echoes its text. */
  lemma FirstRequestLoads(text: string, threshold: real, t: Tokenizer, m: Model, probs: seq<real>)
    requires !Blank(text)
    requires SelectLabels(FixLabelTable(m.id2label), |probs|).Some?
    ensures var r := Predict(Initial, text, threshold, Succeed(t, m), Some(probs));
            && r.after == LoadModel(Initial, Succeed(t, m)).after
            && r.result.Ok? && r.result.value.textAnalyzed == text
            && r.result.value.emotions ==
               ToEmotions(Rank(probs, SelectLabels(FixLabelTable(m.id2label), |probs|).value, threshold))
  {
    StripEmptyIffBlank(text);
    var step := LoadModel(Initial, Succeed(t, m));
    assert step == LoadStep(State(Some(Model(FixLabelTable(m.id2label))), Some(t), false, None), None);
    assert Infer(step.after, text, threshold, Some(probs)).Ok?;
  }

  /** A load that fails after both handles are assigned leaves the model in
      place with the error recorded. The service then reports itself
      unhealthy, yet warmup answers "ready" and predictions are scored,
      because both handlers test the handles before the error. */
  lemma LateFailureKeepsServing(s: State, t: Tokenizer, m: Model, e: string, text: string,
                                threshold: real, o: LoadOutcome, forward: Option<seq<real>>)
    requires WouldLoad(s) && e != "" && !Blank(text)
    ensures var after := LoadModel(s, FailAfterModel(t, m, e)).after;
            && Loaded(after) && ErrorRecorded(after)
            && HealthCheck(after).status == "unhealthy"
            && Warmup(after, o).reply.status == "ready"
            && Predict(after, text, threshold, o, forward).result == Infer(after, text, threshold, forward)
  {
    StripEmptyIffBlank(text);
  }

  /** An empty exception text after both handles are assigned is invisible:
      the report is healthy and loaded, and later predictions are scored
      without any retry, because the gate is skipped once both handles exist. */
  lemma EmptyLateErrorReadsLoaded(s: State, t: Tokenizer, m: Model, text: string,
                                  threshold: real, o: LoadOutcome, forward: Option<seq<real>>)
    requires WouldLoad(s)
    ensures var after := LoadModel(s, FailAfterModel(t, m, "")).after;
            && Loaded(after) && after.loadError == Some("") && !ErrorRecorded(after)
            && HealthCheck(after) == Health("healthy", "loaded", ModelName, ModelType)
            && Predict(after, text, threshold, o, forward).after == after
  {
  }

  /** A prediction ends quiescent again. */
  lemma PredictKeepsQuiescent(s: State, text: string, threshold: real, o: LoadOutcome, forward: Option<seq<real>>)
    requires Quiescent(s)
    ensures Quiescent(Predict(s, text, threshold, o, forward).after)
  {
    LoadKeepsQuiescent(s, o);
  }

  /** The emotion with the single highest probability above the threshold
      comes first in a successful response. */
  lemma TopEmotionFirst(s: State, text: string, threshold: real, o: LoadOutcome,
                        probs: seq<real>, labels: seq<string>, j: nat)
    requires Loaded(s) && !Blank(text)
    requires SelectLabels(s.model.value.id2label, |probs|) == Some(labels)
    requires Kept(probs, labels, threshold, j)
    requires forall i :: 0 <= i < |probs| && i != j ==> probs[i] < probs[j]
    ensures Predict(s, text, threshold, o, Some(probs)).result.Ok?
    ensures var emotions := Predict(s, text, threshold, o, Some(probs)).result.value.emotions;
            |emotions| > 0 && emotions[0] == Emotion(labels[j], probs[j])
  {
    StripEmptyIffBlank(text);
    TopScoreRanksFirst(probs, labels, threshold, j);
    assert Infer(s, text, threshold, Some(probs)) == Ok(Response(true, ToEmotions(Rank(probs, labels, threshold)), text));
  }

  /** Example: a model whose 28-entry label table was corrected at load time,
      and an output where "excitement" (position 13) scores highest above the
      default threshold 0.05: the response leads with "excitement". */
  lemma ExcitementLeads(s: State, text: string, o: LoadOutcome, table: LabelTable, probs: seq<real>)
    requires s.tokenizer.Some? && !Blank(text)
    requires table.Some? && |table.value| == |GoEmotionsLabels|
    requires s.model == Some(Model(FixLabelTable(table)))
    requires |probs| == 28 && probs[13] > DefaultThreshold
    requires forall i :: 0 <= i < |probs| && i != 13 ==> probs[i] < probs[13]
    ensures Predict(s, text, DefaultThreshold, o, Some(probs)).result.Ok?
    ensures var emotions := Predict(s, text, DefaultThreshold, o, Some(probs)).result.value.emotions;
            |emotions| > 0 && emotions[0] == Emotion("excitement", probs[13])
  {
    FixedTableAlwaysNamesGoEmotions(table, |probs|);
    assert GoEmotionsLabels[13] == "excitement";
    TopEmotionFirst(s, text, DefaultThreshold, o, probs, GoEmotionsLabels, 13);
  }
}
