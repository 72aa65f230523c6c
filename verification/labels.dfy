/** The label vocabulary: the fixed GoEmotions list, the correction applied to
    a freshly loaded model's `id2label` table, and the choice, at prediction
    time, between the model's own labels and the fixed list. */
module Labels {
  import opened Wrappers
  import opened PyText

  /** GOEMOTIONS_LABELS: the 27 GoEmotions emotions followed by "neutral". */
  const GoEmotionsLabels: seq<string> := [
    "admiration", "amusement", "anger", "annoyance", "approval", "caring",
    "confusion", "curiosity", "desire", "disappointment", "disapproval", "disgust",
    "embarrassment", "excitement", "fear", "gratitude", "grief", "joy",
    "love", "nervousness", "optimism", "pride", "realization", "relief",
    "remorse", "sadness", "surprise", "neutral"
  ]

  /** The placeholder prefix a model configuration uses for unnamed labels. */
  const PlaceholderPrefix: string := "LABEL_"

  /** A model's label table, `model.config.id2label`; `None` when the
      configuration has no such attribute. */
  type LabelTable = Option<map<int, string>>

  /** The table that maps each position of `labels` to the label there. */
  function IndexMap(labels: seq<string>): (r: map<int, string>) {
    map i | 0 <= i < |labels| :: labels[i]
  }

  /** No label in `labels` is a placeholder name. */
  predicate NoPlaceholders(labels: seq<string>) {
    forall i :: 0 <= i < |labels| ==> !StartsWith(labels[i], PlaceholderPrefix)
  }

  /** A table built from a list has one entry per list element. */
  lemma {:induction false} IndexMapSize(labels: seq<string>)
    ensures |IndexMap(labels)| == |labels|
  {
    if |labels| > 0 {
      var init := labels[..|labels| - 1];
      IndexMapSize(init);
      assert |labels| - 1 !in IndexMap(init);
      assert IndexMap(labels) == IndexMap(init)[|labels| - 1 := labels[|labels| - 1]];
    }
  }

  /** None of the GoEmotions labels is a placeholder: each starts with a
      lower-case letter, and the placeholder prefix starts with 'L'. */
  lemma GoEmotionsHasNoPlaceholders()
    ensures NoPlaceholders(GoEmotionsLabels)
  {
    forall i | 0 <= i < |GoEmotionsLabels|
      ensures !StartsWith(GoEmotionsLabels[i], PlaceholderPrefix)
    {
      assert 'a' <= GoEmotionsLabels[i][0] <= 'z';
    }
  }

  /** The label-table correction done right after loading: a table that exists
      and has as many entries as the GoEmotions list is replaced by the
      GoEmotions list; any other table is left as it is. */
  function FixLabelTable(table: LabelTable): (r: LabelTable)
    ensures table.Some? && |table.value| == |GoEmotionsLabels| ==>
              r.Some? && |r.value| == |GoEmotionsLabels|
              && forall i :: 0 <= i < |GoEmotionsLabels| ==> i in r.value && r.value[i] == GoEmotionsLabels[i]
    ensures !(table.Some? && |table.value| == |GoEmotionsLabels|) ==> r == table
  {
    if table.Some? && |table.value| == |GoEmotionsLabels| then
      IndexMapSize(GoEmotionsLabels);
      Some(IndexMap(GoEmotionsLabels))
    else
      table
  }

  /** The guard of the prediction-time label choice: the table exists, is
      non-empty, has one entry per probability, and holds no placeholder name. */
  predicate UsesTable(table: LabelTable, outputs: nat) {
    && table.Some?
    && |table.value| > 0
    && |table.value| == outputs
    && forall k :: k in table.value ==> !StartsWith(table.value[k], PlaceholderPrefix)
  }

  /** Every position `0 .. |m|-1` is a key of `m`, so reading the labels out
      of `m` position by position raises no `KeyError`. */
  predicate DenseKeys(m: map<int, string>) {
    forall i :: 0 <= i < |m| ==> i in m
  }

  /** The label list used to name `outputs` probabilities: the table's labels in
      key order when `UsesTable` holds, the GoEmotions list otherwise. `None`
      models the `KeyError` raised when the table passes the guard but misses
      a position. */
  function SelectLabels(table: LabelTable, outputs: nat): (r: Option<seq<string>>)
    ensures r.None? <==> UsesTable(table, outputs) && !DenseKeys(table.value)
    ensures r.Some? ==> NoPlaceholders(r.value)
    ensures r.Some? && UsesTable(table, outputs) ==>
              |r.value| == outputs && forall i :: 0 <= i < outputs ==> r.value[i] == table.value[i]
    ensures !UsesTable(table, outputs) ==> r == Some(GoEmotionsLabels)
  {
    if UsesTable(table, outputs) then
      var m := table.value;
      if DenseKeys(m) then
        Some(seq(|m|, i requires 0 <= i < |m| => m[i]))
      else
        None
    else
      GoEmotionsHasNoPlaceholders();
      Some(GoEmotionsLabels)
  }

  /** Round trip: a list of proper label names written into a table as the
      loader does is read back, unchanged, by the prediction-time choice. */
  lemma SelectLabelsRoundTrip(labels: seq<string>)
    requires |labels| > 0 && NoPlaceholders(labels)
    ensures SelectLabels(Some(IndexMap(labels)), |labels|) == Some(labels)
  {
    IndexMapSize(labels);
    var m := IndexMap(labels);
    forall k | k in m ensures !StartsWith(m[k], PlaceholderPrefix) {
      assert m[k] == labels[k];
    }
    var r := SelectLabels(Some(m), |labels|);
    assert r.value == labels;
  }

  /** Once the loader has corrected a 28-entry table, predictions are always
      named by the GoEmotions list, whatever the number of probabilities. */
  lemma FixedTableAlwaysNamesGoEmotions(table: LabelTable, outputs: nat)
    requires table.Some? && |table.value| == |GoEmotionsLabels|
    ensures SelectLabels(FixLabelTable(table), outputs) == Some(GoEmotionsLabels)
  {
    if outputs == |GoEmotionsLabels| {
      GoEmotionsHasNoPlaceholders();
      SelectLabelsRoundTrip(GoEmotionsLabels);
    }
  }
}
