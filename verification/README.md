# Emotion analysis service: model lifecycle and scoring

This project models the logic of a small FastAPI service. The service labels free-form text with GoEmotions emotions, using a pretrained multi-label classifier. Three parts of `main.py` are modelled, with the machine-learning library calls abstracted away:

- **The model lifecycle.** The four module-level globals are `model`, `tokenizer`, `model_loading` and `model_load_error`. Here they are one immutable record, `Lifecycle.State`. The lazy loader `load_model_async` is `Lifecycle.LoadModel`, built from `StartLoad` and `FinishLoad`. The warmup handler is `Lifecycle.Warmup`. The outcome of a download attempt is an input of type `Lifecycle.LoadOutcome`. It says how far the attempt got: it failed before the tokenizer was assigned, failed after the tokenizer was assigned, failed after the model was assigned, or succeeded.
- **The health projection.** `health_check` is `Lifecycle.HealthCheck`, a pure function of the state.
- **The prediction handler.** `predict_emotions` is `Predict.Predict`. It runs the load gate, then the blank-text check (Python's `str.strip`, modelled in `PyText`), then the scoring. Scoring (`Scoring`) keeps every position whose probability is strictly above the threshold and that has a label. It then sorts the kept positions by descending score with a stable sort. The label vocabulary (`Labels`) is either the model configuration's `id2label` table or the fixed 28-entry `GOEMOTIONS_LABELS` list. The loader overwrites a 28-entry table with that list.

The tokenizer call, the forward pass and the sigmoid are combined into one input, `forward`. It is either the vector of per-label probabilities as `seq<real>`, or `None` when that library code raised.

Behaviours of the code worth knowing:

- The threshold test is strict (`prob > threshold`). The threshold is a query parameter whose default is 0.05 (`Predict.DefaultThreshold`), and it is never range-checked.
- Nothing waits for or coalesces with a load in flight. Suppose a prediction with non-blank text arrives while `model_loading` is set. The loader returns at once. The request then calls the missing handles and fails with 500 (`Predict.PredictDuringLoadFails`). Blank text in the same situation gets 400, because the blank-text check (main.py:183) runs before the handles are called (main.py:190) (`Predict.BlankTextDuringLoadRejected`). A warmup in the same situation answers `"loading"`. No handler can actually observe that flag set, though. `load_model_async` contains no `await`, so under the atomic handlers modelled here the flag is always cleared again before the handler returns. Every state reachable from `Initial` satisfies `Lifecycle.Quiescent` (`LoadKeepsQuiescent`, `WarmupKeepsQuiescent`, `PredictKeepsQuiescent`). So this scenario, `Predict.PredictDuringLoadFails`, `Predict.BlankTextDuringLoadRejected` and the "loading" branches of the loader, the health report and warmup describe the code's guards, not states a running service reaches. The synchronous download blocks the event loop instead.
- After a failed load, prediction does not retry. While a handle is missing and the error string is non-empty, every prediction fails with 500 and no load is attempted (`Predict.NoRetryAfterRecordedError`). Warmup does retry, and the retry clears the error (`Lifecycle.WarmupRetriesAfterFailure`).
- Every load failure is reported with status 500, both the recorded one and the one raised by a load the request started.
- Loading is not all-or-nothing: each handle is kept once assigned. A failure after the tokenizer is assigned leaves the tokenizer set, the model unset and the error recorded (`Lifecycle.PartialLoadFailure`). A failure after both handles are assigned leaves both set and the error recorded. The health report then says unhealthy, while warmup answers "ready" and predictions are scored, because both handlers test the handles before the error (`Predict.LateFailureKeepsServing`).
- The health report and the prediction gate test the recorded error by Python truthiness. An exception whose text is empty is recorded as `""`, which reads as "no error". When the failure leaves a handle missing, the health report is healthy / not_loaded (`Lifecycle.EmptyErrorReadsHealthy`) and the next prediction retries the load. When the failure comes after both handles are assigned, the report is healthy / loaded and no load is retried (`Predict.EmptyLateErrorReadsLoaded`).
- Results are sorted by score with `reverse=True`, so equal scores may sit next to each other. They keep ascending vocabulary order, because Python's sort is stable (`Scoring.SortRanks`).

Ranking has a uniqueness lemma, `Scoring.RankedIsUnique`. Any two lists that hold the same candidates and are ordered by (score descending, vocabulary position ascending) are equal. The model sorts with an insertion sort. Because of this lemma, that sort produces exactly the list Python's stable `list.sort(reverse=True)` produces.

## Model

| member | source | states |
|---|---|---|
| PyText.Strip | main.py:183 | `text.strip()` is no longer than the text and neither starts nor ends with whitespace; `StripIsTrim` shows it is a piece of the text |
| PyText.StripIsTrim | main.py:183 | the stripped text is one contiguous piece of the input, and everything removed on either side is whitespace |
| PyText.StripEmptyIffBlank | main.py:183-184 | `not text.strip()` holds exactly when every character of the text is whitespace (the empty text included) |
| Labels.GoEmotionsHasNoPlaceholders | main.py:40-46 | no entry of GOEMOTIONS_LABELS starts with the placeholder prefix `LABEL_` |
| Labels.FixLabelTable | main.py:94-97 | a label table with exactly 28 entries is replaced by positions 0..27 mapped to GOEMOTIONS_LABELS; a missing table or one of any other size is left unchanged |
| Labels.SelectLabels | main.py:206-214 | the config labels are used, in key order and one per probability, only if the table exists, is non-empty, has one entry per probability and holds no `LABEL_` name; otherwise GOEMOTIONS_LABELS is used; a table that passes the guard but misses a position raises (`None`); the chosen vocabulary never holds a `LABEL_` name |
| Labels.SelectLabelsRoundTrip | main.py:206-210 | a non-empty list of proper names, written as an `id2label` table, is read back unchanged by the prediction-time selection |
| Labels.FixedTableAlwaysNamesGoEmotions | main.py:94-97 | once the loader has corrected a 28-entry table, the selection at lines 206-214 yields GOEMOTIONS_LABELS for every output length |
| Scoring.FilterFrom | main.py:219-224 | from a given position on, every kept entry reports a position whose probability is strictly above the threshold and that has a label, with that label and probability; positions appear in ascending order; every such position appears |
| Scoring.Filter | main.py:219-224 | the filter loop keeps each position with `prob > threshold` and `i < len(label_list)` exactly once, in vocabulary order, with its label and score |
| Scoring.Insert | main.py:227 | one insertion step keeps the list a permutation (multiset) of the input plus the new element, and keeps it non-increasing by score |
| Scoring.Sort | main.py:227 | the sort returns a permutation of its input whose scores never increase |
| Scoring.InsertKeepsRanked | main.py:227 | inserting an element that comes earlier in vocabulary order than all placed ones keeps equal scores in vocabulary order |
| Scoring.SortRanks | main.py:227 | stability: sorting entries listed in vocabulary order puts higher scores first and equal scores in ascending vocabulary order |
| Scoring.Rank | main.py:219-227 | the ranked list reports only positions above the threshold with their own label and probability, reports every such position exactly once, is a permutation of the filtered list, and is ordered by descending score with ties in vocabulary order |
| Scoring.ToEmotions | main.py:223-224 | each `EmotionPrediction` carries the label and score of the corresponding ranked entry, one per entry |
| Scoring.EmotionsReportKeptPositions | main.py:219-227 | every returned emotion equals `(label_list[j], probs[j])` for some position `j` with `probs[j] > threshold`; every such position's emotion is returned; there is one emotion per kept position; scores never increase along the response |
| Scoring.EmotionsSound | main.py:221-224 | each emotion built from a candidate that faithfully reports a kept position is that position's label and probability |
| Scoring.EmotionsComplete | main.py:221-224 | when every kept position is listed, every kept position's label and probability appears among the emotions |
| Scoring.RankedIsUnique | main.py:227 | two lists holding the same entries and both ordered by (score descending, position ascending) are equal, so any stable descending sort gives the modelled result |
| Scoring.RankThresholdMonotone | main.py:222 | for `t1 <= t2` the ranking at `t2` is a prefix of the ranking at `t1`: raising the threshold only drops the lowest-scored entries |
| Scoring.EmotionsThresholdMonotone | main.py:219-227 | the same prefix property for the emotion list returned to the caller |
| Scoring.TiesKeepVocabularyOrder | main.py:227 | worked example: probabilities 0.5, 0.7, 0.5 at threshold 0.05 rank as position 1, then 0, then 2 |
| Scoring.TopScoreRanksFirst | main.py:227 | the position with the single highest probability above the threshold heads the ranking |
| Lifecycle.StartLoad | main.py:70-71 | a load that goes ahead sets `model_loading` and clears `model_load_error` before any work, and leaves the handles alone |
| Lifecycle.FinishLoad | main.py:73-111 | after the attempt `model_loading` is false on every path; failure records and re-raises the error text and keeps exactly the handles assigned before the failure (none, the tokenizer, or both); success sets both handles, with the label table corrected |
| Lifecycle.LoadModel | main.py:60-111 | returns without change or exception when both handles are present or a load is in flight; otherwise it is the full attempt: it ends not loading, raises exactly when the attempt fails, raising and recording the attempt's own message and keeping the handles assigned before the failure; on success both handles are set and no error is recorded |
| Lifecycle.LoadIgnoresOutcomeWhenSkipped | main.py:64-68 | a load that returns early reads no download outcome: any two outcomes give the same unchanged state |
| Lifecycle.LoadIdempotent | main.py:64-65 | after a successful load, loading again changes nothing and raises nothing |
| Lifecycle.InitialIsQuiescent | main.py:34-37 | the initial globals hold no handle, no load in flight and no error |
| Lifecycle.LoadKeepsQuiescent | main.py:80-111 | from a state with no load in flight and no model without a tokenizer, a load ends in such a state again |
| Lifecycle.PartialLoadFailure | main.py:81-90 | a failure after the tokenizer is assigned leaves the tokenizer set, the model unset and the error recorded |
| Lifecycle.HealthCheck | main.py:130-146 | status is "unhealthy" exactly when a non-empty error is recorded, with model_status "error: <msg>"; otherwise status is "healthy" and model_status is "loading", "loaded" or "not_loaded", each under its exact condition; name and type are the fixed strings |
| Lifecycle.HealthAfterSuccessfulLoad | main.py:130-139 | after a successful load the report is healthy / loaded |
| Lifecycle.HealthAfterFailedLoad | main.py:133-135 | after a failed load with a non-empty message the report is unhealthy / "error: <message>", whatever handles were left |
| Lifecycle.EmptyErrorReadsHealthy | main.py:133 | a load that fails before the tokenizer is assigned, with an empty exception text and no model present, is reported as healthy / not_loaded |
| Lifecycle.Warmup | main.py:153-163 | "ready" with no state change when loaded; "loading" with no state change when a load is in flight; otherwise the loader runs, and the reply is "ready" with "Model loaded successfully" exactly when the attempt succeeds and "error" with "Failed to load model: <msg>" when it fails; "ready" always means both handles are present |
| Lifecycle.WarmupIdempotent | main.py:153-154 | a second warmup after a "ready" reply answers "Model already loaded" / "ready" and changes nothing |
| Lifecycle.WarmupRetriesAfterFailure | main.py:159-161 | warmup retries after a recorded failure, and a successful retry clears the error and reports loaded |
| Lifecycle.WarmupKeepsQuiescent | main.py:153-163 | warmup preserves the between-handlers invariant |
| Predict.StatusCode | main.py:175-184 | load errors (lines 176 and 181) and prediction failures (line 240) are reported with 500, and blank text alone with 400 |
| Predict.Infer | main.py:186-240 | inference succeeds exactly when both handles exist, the forward pass produced probabilities and the label choice raised no error; any failure is a 500 "Prediction failed"; on success the text is echoed, every emotion is a kept position's label and probability, every kept position is returned, scores never increase, and the list is the ranked filter result (ties in vocabulary order) |
| Predict.Predict | main.py:166-236 | when a handle is missing and an error is recorded, it fails with that error and changes nothing; a loaded state is never changed; when a handle is missing and no error is recorded, the state afterwards is exactly the loader's result, whatever the request's own outcome (so a failed load stays recorded and loaded handles are kept even when the text is then rejected); a load the request starts that fails gives "Failed to load model" with the attempt's message; blank text is rejected (400) exactly when the load gate lets the request through and the text is blank; non-blank text that passes the gate is scored by `Infer`; success echoes the text unchanged and leaves the model loaded |
| Predict.NoRetryAfterRecordedError | main.py:174-176 | with a handle missing and an error recorded, the result does not depend on the text, the threshold, the load outcome or the forward pass, and the status is 500 |
| Predict.BlankTextCheckedAfterGate | main.py:174-184 | blank text sent while an error is recorded gets the load error, not the 400 |
| Predict.BlankTextRejected | main.py:183-184 | blank text on a loaded model fails with 400 "Text input cannot be empty" and changes nothing |
| Predict.PredictDuringLoadFails | main.py:67-68 | for non-blank text and no recorded error, a request that finds a load in flight does not wait for it: the loader returns at once and the request fails with "Prediction failed" |
| Predict.EmptyLateErrorReadsLoaded | main.py:133-139 | a load that fails with an empty exception text after both handles are assigned is reported as healthy / loaded, and a later prediction leaves the state unchanged (no retry) |
| Predict.BlankTextDuringLoadRejected | main.py:183-184 | blank text sent while a load is in flight is rejected with 400 and changes nothing, since the loader returns at once and the text check precedes inference |
| Predict.LateFailureKeepsServing | main.py:80-111 | a load that fails after both handles are assigned leaves the model loaded with the error recorded: health reports unhealthy, warmup answers "ready", and non-blank text is scored |
| Predict.FirstRequestLoads | main.py:173-179 | the first request on a fresh process triggers the load; when it succeeds and the label choice raises nothing, the request is answered with the ranked emotions under the corrected label table and echoes its text |
| Predict.PredictKeepsQuiescent | main.py:173-181 | the prediction handler preserves the between-handlers invariant |
| Predict.TopEmotionFirst | main.py:227 | when one position has the single highest probability and it clears the threshold, the response leads with its label and score |
| Predict.ExcitementLeads | main.py:206-227 | example: with a corrected 28-entry table and "excitement" (position 13) scoring highest above the default threshold 0.05, the response leads with "excitement" |

## Left out

- Tokenisation, the forward pass and the sigmoid (main.py:189-203) call into torch and transformers. They are the input `forward`: a vector of probabilities, or a failure.
- Downloading and caching with `from_pretrained`, and `model.eval()` (main.py:80-91), are network, disk and library code. They are the input `LoadOutcome`. A failure after the model is assigned stores the handle the attempt produced, without modelling whether the label-table correction had already run.
- Floating point: probabilities and thresholds are `real`. NaN and rounding are not modelled.
- Concurrency: handlers run as atomic transitions on the state record. The `model_loading` flag is an ordinary field of the input state. The source has no locking.
- The text of exceptions raised by library code: `Predict.PredictionFailed` carries no message.
- `label2id` (main.py:97) is written but never read.
- Logging, timing, the FastAPI app, CORS and route setup, the constant `/api` liveness reply, the startup hook and the uvicorn entry point are plumbing.
- setup.py creates a virtual environment and installs packages through shell commands; it is pure I/O.
