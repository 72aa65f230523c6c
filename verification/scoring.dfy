/** Post-inference scoring: turning one probability per model output into the
    ranked list of emotions the prediction endpoint returns. */
module Scoring {

  /** One kept prediction together with the vocabulary position it came from. */
  datatype Candidate = Candidate(index: nat, name: string, score: real)

  /** The `EmotionPrediction` record the endpoint returns: a label (`name`) and its score. */
  datatype Emotion = Emotion(name: string, score: real)

  /** Position `j` clears the filter: it has a probability and a label, and
      its probability is strictly above the threshold. */
  predicate Kept(probs: seq<real>, labels: seq<string>, threshold: real, j: int) {
    0 <= j < |probs| && j < |labels| && probs[j] > threshold
  }

  /** `c` faithfully reports a kept position: its label and score are the
      vocabulary entry and the probability at `c.index`. */
  predicate Reports(c: Candidate, probs: seq<real>, labels: seq<string>, threshold: real) {
    Kept(probs, labels, threshold, c.index) && c.name == labels[c.index] && c.score == probs[c.index]
  }

  /** Some element of `cs` reports position `j`. */
  predicate Lists(cs: seq<Candidate>, j: int) {
    exists k :: 0 <= k < |cs| && cs[k].index == j
  }

  /** Candidates appear in strictly ascending vocabulary position, as the
      filter loop emits them. */
  predicate IndicesAscending(cs: seq<Candidate>) {
    forall k, l :: 0 <= k < l < |cs| ==> cs[k].index < cs[l].index
  }

  /** Scores never increase along `cs`: "highest first". */
  predicate NonIncreasing(cs: seq<Candidate>) {
    forall k, l :: 0 <= k < l < |cs| ==> cs[k].score >= cs[l].score
  }

  /** The order a stable descending sort by score gives to candidates listed in
      ascending vocabulary order: higher score first, and among equal scores
      the lower vocabulary position first. */
  predicate Precedes(a: Candidate, b: Candidate) {
    a.score > b.score || (a.score == b.score && a.index < b.index)
  }

  /** Every candidate precedes every later one: the complete order of the
      response. */
  predicate Ranked(cs: seq<Candidate>) {
    forall k, l :: 0 <= k < l < |cs| ==> Precedes(cs[k], cs[l])
  }

  /** The filter loop over the probabilities, from position `from` on: a
      position is kept when its probability is strictly above the threshold
      and the vocabulary has a label for it. */
  function FilterFrom(probs: seq<real>, labels: seq<string>, threshold: real, from: nat): (r: seq<Candidate>)
    decreases |probs| - from
    ensures forall k :: 0 <= k < |r| ==> from <= r[k].index && Reports(r[k], probs, labels, threshold)
    ensures IndicesAscending(r)
    ensures forall j :: from <= j && Kept(probs, labels, threshold, j) ==> Lists(r, j)
  {
    if from >= |probs| then []
    else
      var rest := FilterFrom(probs, labels, threshold, from + 1);
      if probs[from] > threshold && from < |labels| then
        var c := Candidate(from, labels[from], probs[from]);
        KeepPosition(probs, labels, threshold, from, c, rest);
        [c] + rest
      else
        rest
  }

  /** The step of the filter loop that keeps position `from`: its candidate
      goes in front of those kept from the later positions. */
  lemma KeepPosition(probs: seq<real>, labels: seq<string>, threshold: real, from: nat,
                     c: Candidate, rest: seq<Candidate>)
    requires Kept(probs, labels, threshold, from) && c == Candidate(from, labels[from], probs[from])
    requires forall k :: 0 <= k < |rest| ==> from + 1 <= rest[k].index && Reports(rest[k], probs, labels, threshold)
    requires IndicesAscending(rest)
    requires forall j :: from + 1 <= j && Kept(probs, labels, threshold, j) ==> Lists(rest, j)
    ensures var r := [c] + rest;
            && (forall k :: 0 <= k < |r| ==> from <= r[k].index && Reports(r[k], probs, labels, threshold))
            && IndicesAscending(r)
            && (forall j :: from <= j && Kept(probs, labels, threshold, j) ==> Lists(r, j))
  {
    var r := [c] + rest;
    assert forall k :: 1 <= k < |r| ==> r[k] == rest[k - 1];
    forall j | from < j && Kept(probs, labels, threshold, j) ensures Lists(r, j) {
      var k :| 0 <= k < |rest| && rest[k].index == j;
      assert r[k + 1].index == j;
    }
    assert r[0].index == from;
  }

  /** The kept positions, in vocabulary order, each exactly once. */
  function Filter(probs: seq<real>, labels: seq<string>, threshold: real): (r: seq<Candidate>)
    ensures forall k :: 0 <= k < |r| ==> Reports(r[k], probs, labels, threshold)
    ensures IndicesAscending(r)
    ensures forall j :: Kept(probs, labels, threshold, j) ==> Lists(r, j)
  {
    FilterFrom(probs, labels, threshold, 0)
  }

  /** Every element of a list holding `c` and the elements of `ys` is `c` or
      an element of `ys`. */
  lemma MembersOfInsertion(r: seq<Candidate>, c: Candidate, ys: seq<Candidate>)
    requires multiset(r) == multiset{c} + multiset(ys)
    ensures forall k :: 0 <= k < |r| ==> r[k] == c || r[k] in ys
  {
    forall k | 0 <= k < |r| ensures r[k] == c || r[k] in ys {
      assert r[k] in multiset(r);
    }
  }

  /** Putting a candidate at least as high as everything in a
      non-increasing list in front of it keeps the list non-increasing. */
  lemma ConsKeepsNonIncreasing(x: Candidate, tail: seq<Candidate>)
    ensures NonIncreasing(tail) && (forall k :: 0 <= k < |tail| ==> tail[k].score <= x.score) ==>
            NonIncreasing([x] + tail)
  {
    var r := [x] + tail;
    if NonIncreasing(tail) && (forall k :: 0 <= k < |tail| ==> tail[k].score <= x.score) {
      forall k, l | 0 <= k < l < |r| ensures r[k].score >= r[l].score {
        if k > 0 {
          assert r[k] == tail[k - 1] && r[l] == tail[l - 1];
        }
      }
    }
  }

  /** Inserts `c` before the first element whose score does not exceed its
      own, so `c` goes ahead of every equal score already placed. */
  function Insert(c: Candidate, ys: seq<Candidate>): (r: seq<Candidate>)
    ensures multiset(r) == multiset{c} + multiset(ys)
    ensures NonIncreasing(ys) ==> NonIncreasing(r)
  {
    if |ys| == 0 || ys[0].score <= c.score then
      ConsKeepsNonIncreasing(c, ys);
      [c] + ys
    else
      var tail := Insert(c, ys[1..]);
      InsertBehindHead(c, ys, tail);
      [ys[0]] + tail
  }

  /** The recursive case of `Insert`: `c` goes behind the head of `ys`, into
      the tail; the head stays in front. */
  lemma InsertBehindHead(c: Candidate, ys: seq<Candidate>, tail: seq<Candidate>)
    requires |ys| > 0 && ys[0].score > c.score
    requires multiset(tail) == multiset{c} + multiset(ys[1..])
    requires NonIncreasing(ys[1..]) ==> NonIncreasing(tail)
    ensures multiset([ys[0]] + tail) == multiset{c} + multiset(ys)
    ensures NonIncreasing(ys) ==> NonIncreasing([ys[0]] + tail)
  {
    assert ys == [ys[0]] + ys[1..];
    if NonIncreasing(ys) {
      MembersOfInsertion(tail, c, ys[1..]);
      assert forall k :: 0 <= k < |tail| ==> tail[k].score <= ys[0].score;
      ConsKeepsNonIncreasing(ys[0], tail);
    }
  }

  /** Python's `list.sort(key=score, reverse=True)`, modelled as an insertion
      sort that keeps equal scores in their original order. */
  function Sort(xs: seq<Candidate>): (r: seq<Candidate>)
    ensures multiset(r) == multiset(xs)
    ensures NonIncreasing(r)
  {
    if |xs| == 0 then []
    else
      assert xs == [xs[0]] + xs[1..];
      Insert(xs[0], Sort(xs[1..]))
  }

  /** Inserting a candidate that comes before every placed one in vocabulary
      order keeps a ranked list ranked: it lands ahead of its equal scores. */
  lemma {:induction false} InsertKeepsRanked(c: Candidate, ys: seq<Candidate>)
    requires Ranked(ys)
    requires forall k :: 0 <= k < |ys| ==> c.index < ys[k].index
    ensures Ranked(Insert(c, ys))
  {
    if |ys| > 0 && ys[0].score > c.score {
      InsertKeepsRanked(c, ys[1..]);
      var tail := Insert(c, ys[1..]);
      assert ys == [ys[0]] + ys[1..];
      MembersOfInsertion(tail, c, ys[1..]);
    }
  }

  /** Stability: sorting candidates listed in vocabulary order ranks them, so
      equal scores keep ascending vocabulary order. */
  lemma {:induction false} SortRanks(xs: seq<Candidate>)
    requires IndicesAscending(xs)
    ensures Ranked(Sort(xs))
  {
    if |xs| > 0 {
      SortRanks(xs[1..]);
      var sorted := Sort(xs[1..]);
      forall k | 0 <= k < |sorted| ensures xs[0].index < sorted[k].index {
        assert sorted[k] in multiset(xs[1..]);
      }
      InsertKeepsRanked(xs[0], sorted);
    }
  }

  /** The ranked emotions for one probability vector: the kept positions,
      each exactly once, highest score first, ties in vocabulary order. */
  function Rank(probs: seq<real>, labels: seq<string>, threshold: real): (r: seq<Candidate>)
    ensures forall k :: 0 <= k < |r| ==> Reports(r[k], probs, labels, threshold)
    ensures forall j :: Kept(probs, labels, threshold, j) ==> Lists(r, j)
    ensures forall k, l :: 0 <= k < l < |r| ==> r[k].index != r[l].index
    ensures NonIncreasing(r) && Ranked(r)
    ensures multiset(r) == multiset(Filter(probs, labels, threshold))
  {
    var kept := Filter(probs, labels, threshold);
    SortRanks(kept);
    PermutationKeepsPositions(kept, Sort(kept), probs, labels, threshold);
    Sort(kept)
  }

  /** A reordering of a complete, faithful filter result is still complete
      and faithful. */
  lemma PermutationKeepsPositions(kept: seq<Candidate>, r: seq<Candidate>,
                                  probs: seq<real>, labels: seq<string>, threshold: real)
    requires multiset(r) == multiset(kept)
    requires forall k :: 0 <= k < |kept| ==> Reports(kept[k], probs, labels, threshold)
    requires forall j :: Kept(probs, labels, threshold, j) ==> Lists(kept, j)
    ensures forall k :: 0 <= k < |r| ==> Reports(r[k], probs, labels, threshold)
    ensures forall j :: Kept(probs, labels, threshold, j) ==> Lists(r, j)
  {
    forall k | 0 <= k < |r| ensures Reports(r[k], probs, labels, threshold) {
      assert r[k] in multiset(kept);
    }
    forall j | Kept(probs, labels, threshold, j) ensures Lists(r, j) {
      var k0 :| 0 <= k0 < |kept| && kept[k0].index == j;
      assert kept[k0] in multiset(r);
    }
  }

  /** The `EmotionPrediction` list returned to the caller. */
  function ToEmotions(cs: seq<Candidate>): (r: seq<Emotion>)
    ensures |r| == |cs|
    ensures forall k :: 0 <= k < |cs| ==> r[k].name == cs[k].name && r[k].score == cs[k].score
  {
    seq(|cs|, k requires 0 <= k < |cs| => Emotion(cs[k].name, cs[k].score))
  }

  /** `e` is the label and probability of some position that clears the
      threshold. */
  predicate KeptEmotion(e: Emotion, probs: seq<real>, labels: seq<string>, threshold: real) {
    exists j :: 0 <= j < |probs| && Kept(probs, labels, threshold, j) && e == Emotion(labels[j], probs[j])
  }

  /** Each returned emotion is the label and probability of one position
      that clears the threshold; every such position is returned, one
      emotion per position; and scores never increase along the list. */
  lemma EmotionsReportKeptPositions(probs: seq<real>, labels: seq<string>, threshold: real)
    ensures var e := ToEmotions(Rank(probs, labels, threshold));
            && (forall k :: 0 <= k < |e| ==> KeptEmotion(e[k], probs, labels, threshold))
            && (forall j :: Kept(probs, labels, threshold, j) ==> Emotion(labels[j], probs[j]) in e)
            && |e| == |Filter(probs, labels, threshold)|
            && (forall k, l :: 0 <= k < l < |e| ==> e[k].score >= e[l].score)
  {
    var r := Rank(probs, labels, threshold);
    EmotionsSound(r, probs, labels, threshold);
    EmotionsComplete(r, probs, labels, threshold);
    assert |r| == |multiset(r)| == |multiset(Filter(probs, labels, threshold))|;
  }

  /** Soundness half: the emotions of faithful candidates are kept positions'. */
  lemma EmotionsSound(r: seq<Candidate>, probs: seq<real>, labels: seq<string>, threshold: real)
    requires forall k :: 0 <= k < |r| ==> Reports(r[k], probs, labels, threshold)
    ensures forall k :: 0 <= k < |r| ==> KeptEmotion(ToEmotions(r)[k], probs, labels, threshold)
  {
    forall k | 0 <= k < |r|
      ensures KeptEmotion(ToEmotions(r)[k], probs, labels, threshold)
    {
      var j := r[k].index;
      assert Reports(r[k], probs, labels, threshold);
      assert ToEmotions(r)[k] == Emotion(labels[j], probs[j]);
    }
  }

  /** Completeness half: a faithful list naming every kept position yields
      an emotion for every kept position. */
  lemma EmotionsComplete(r: seq<Candidate>, probs: seq<real>, labels: seq<string>, threshold: real)
    requires forall k :: 0 <= k < |r| ==> Reports(r[k], probs, labels, threshold)
    requires forall j :: Kept(probs, labels, threshold, j) ==> Lists(r, j)
    ensures forall j :: Kept(probs, labels, threshold, j) ==> Emotion(labels[j], probs[j]) in ToEmotions(r)
  {
    forall j | Kept(probs, labels, threshold, j)
      ensures Emotion(labels[j], probs[j]) in ToEmotions(r)
    {
      assert Lists(r, j);
      var k :| 0 <= k < |r| && r[k].index == j;
      assert Reports(r[k], probs, labels, threshold);
      assert ToEmotions(r)[k] == Emotion(labels[j], probs[j]);
    }
  }

  /** The first element of a ranked list precedes every other element of it. */
  lemma RankedHeadFirst(a: seq<Candidate>, x: Candidate)
    requires Ranked(a) && |a| > 0 && x in a
    ensures x == a[0] || Precedes(a[0], x)
  {
  }

  /** Dropping the head of a non-empty list removes one copy of it from the
      list's multiset. */
  lemma MultisetOfTail(a: seq<Candidate>)
    requires |a| > 0
    ensures multiset(a[1..]) == multiset(a) - multiset{a[0]}
  {
    assert a == [a[0]] + a[1..];
  }

  /** Two ranked lists holding the same candidates are the same list: the
      ranking order leaves no freedom, so any stable descending sort of the
      filtered list (Python's included) yields exactly `Rank`. */
  lemma {:induction false} RankedIsUnique(a: seq<Candidate>, b: seq<Candidate>)
    requires Ranked(a) && Ranked(b)
    requires multiset(a) == multiset(b)
    ensures a == b
  {
    if |a| == 0 {
      assert |b| == |multiset(b)| == 0;
    } else {
      assert |b| == |multiset(b)| == |multiset(a)| == |a|;
      assert b[0] in multiset(a);
      assert a[0] in multiset(b);
      RankedHeadFirst(a, b[0]);
      RankedHeadFirst(b, a[0]);
      assert a[0] == b[0];
      MultisetOfTail(a);
      MultisetOfTail(b);
      RankedIsUnique(a[1..], b[1..]);
    }
  }

  /** The candidates of `cs` whose score is above `threshold`, in order. */
  function KeepAbove(cs: seq<Candidate>, threshold: real): (r: seq<Candidate>)
    ensures forall k :: 0 <= k < |r| ==> r[k].score > threshold
  {
    if |cs| == 0 then []
    else if cs[0].score > threshold then [cs[0]] + KeepAbove(cs[1..], threshold)
    else KeepAbove(cs[1..], threshold)
  }

  /** Filtering at a higher threshold is filtering again the list filtered at
      a lower one. */
  lemma {:induction false} FilterFromRefines(probs: seq<real>, labels: seq<string>, t1: real, t2: real, from: nat)
    requires t1 <= t2
    decreases |probs| - from
    ensures FilterFrom(probs, labels, t2, from) == KeepAbove(FilterFrom(probs, labels, t1, from), t2)
  {
    if from < |probs| {
      FilterFromRefines(probs, labels, t1, t2, from + 1);
    }
  }

  /** When no score clears the threshold, nothing is kept. */
  lemma {:induction false} KeepAboveNone(cs: seq<Candidate>, threshold: real)
    requires forall k :: 0 <= k < |cs| ==> cs[k].score <= threshold
    ensures KeepAbove(cs, threshold) == []
  {
    if |cs| > 0 {
      KeepAboveNone(cs[1..], threshold);
    }
  }

  /** On a list with non-increasing scores, the candidates above a threshold
      form a prefix. */
  lemma {:induction false} KeepAboveIsPrefix(cs: seq<Candidate>, threshold: real)
    requires NonIncreasing(cs)
    ensures |KeepAbove(cs, threshold)| <= |cs|
    ensures KeepAbove(cs, threshold) == cs[..|KeepAbove(cs, threshold)|]
  {
    if |cs| > 0 {
      if cs[0].score > threshold {
        KeepAboveIsPrefix(cs[1..], threshold);
      } else {
        KeepAboveNone(cs, threshold);
      }
    }
  }

  /** Keeping the candidates above a threshold keeps every copy of a
      candidate that clears it and drops every copy of one that does not. */
  lemma {:induction false} KeepAboveMultiset(cs: seq<Candidate>, threshold: real, x: Candidate)
    ensures multiset(KeepAbove(cs, threshold))[x] == if x.score > threshold then multiset(cs)[x] else 0
  {
    if |cs| > 0 {
      KeepAboveMultiset(cs[1..], threshold, x);
      assert cs == [cs[0]] + cs[1..];
    }
  }

  /** Raising the threshold only cuts the ranked list short: the ranking at
      `t2 >= t1` is a prefix of the ranking at `t1`, so every emotion it
      reports is reported, in the same place, at the lower threshold. */
  lemma RankThresholdMonotone(probs: seq<real>, labels: seq<string>, t1: real, t2: real)
    requires t1 <= t2
    ensures |Rank(probs, labels, t2)| <= |Rank(probs, labels, t1)|
    ensures Rank(probs, labels, t2) == Rank(probs, labels, t1)[..|Rank(probs, labels, t2)|]
  {
    var low := Rank(probs, labels, t1);
    var cut := KeepAbove(low, t2);
    FilterFromRefines(probs, labels, t1, t2, 0);
    var f1 := Filter(probs, labels, t1);
    assert Filter(probs, labels, t2) == KeepAbove(f1, t2);
    forall x ensures multiset(cut)[x] == multiset(KeepAbove(f1, t2))[x] {
      KeepAboveMultiset(low, t2, x);
      KeepAboveMultiset(f1, t2, x);
    }
    assert multiset(cut) == multiset(Rank(probs, labels, t2));
    KeepAboveIsPrefix(low, t2);
    assert Ranked(cut) by {
      forall k, l | 0 <= k < l < |cut| ensures Precedes(cut[k], cut[l]) {
        assert cut[k] == low[k] && cut[l] == low[l];
      }
    }
    RankedIsUnique(cut, Rank(probs, labels, t2));
  }

  /** The same monotonicity, for the emotions the endpoint returns. */
  lemma EmotionsThresholdMonotone(probs: seq<real>, labels: seq<string>, t1: real, t2: real)
    requires t1 <= t2
    ensures |Rank(probs, labels, t2)| <= |Rank(probs, labels, t1)|
    ensures ToEmotions(Rank(probs, labels, t2)) ==
            ToEmotions(Rank(probs, labels, t1))[..|Rank(probs, labels, t2)|]
  {
    RankThresholdMonotone(probs, labels, t1, t2);
    var low := Rank(probs, labels, t1);
    var n := |Rank(probs, labels, t2)|;
    assert ToEmotions(low[..n]) == ToEmotions(low)[..n];
  }

  /** A worked example of the tie rule: two equal scores keep vocabulary
      order behind the higher one. */
  const ExampleProbs: seq<real> := [0.5, 0.7, 0.5]
  const ExampleNames: seq<string> := ["admiration", "amusement", "anger"]

  /** The filter keeps all three example positions, in vocabulary order. */
  lemma ExampleFilter()
    ensures Filter(ExampleProbs, ExampleNames, 0.05) ==
            [Candidate(0, "admiration", 0.5), Candidate(1, "amusement", 0.7), Candidate(2, "anger", 0.5)]
  {
    assert FilterFrom(ExampleProbs, ExampleNames, 0.05, 3) == [];
    assert FilterFrom(ExampleProbs, ExampleNames, 0.05, 2) == [Candidate(2, "anger", 0.5)];
    assert FilterFrom(ExampleProbs, ExampleNames, 0.05, 1) ==
           [Candidate(1, "amusement", 0.7), Candidate(2, "anger", 0.5)];
  }

  /** The sort moves the higher score to the front and keeps the two equal
      scores in vocabulary order. */
  lemma ExampleSort()
    ensures Sort([Candidate(0, "admiration", 0.5), Candidate(1, "amusement", 0.7), Candidate(2, "anger", 0.5)]) ==
            [Candidate(1, "amusement", 0.7), Candidate(0, "admiration", 0.5), Candidate(2, "anger", 0.5)]
  {
    var c0, c1, c2 := Candidate(0, "admiration", 0.5), Candidate(1, "amusement", 0.7), Candidate(2, "anger", 0.5);
    assert [c0, c1, c2][1..] == [c1, c2];
    assert [c1, c2][1..] == [c2];
    assert Sort([c2]) == [c2];
    assert Sort([c1, c2]) == [c1, c2];
    assert Insert(c0, [c1, c2]) == [c1, c0, c2];
  }

  /** The whole ranking of the worked example: the higher score first, then
      the two equal scores in vocabulary order. */
  lemma TiesKeepVocabularyOrder()
    ensures Rank(ExampleProbs, ExampleNames, 0.05) ==
            [Candidate(1, "amusement", 0.7), Candidate(0, "admiration", 0.5), Candidate(2, "anger", 0.5)]
  {
    ExampleFilter();
    ExampleSort();
  }

  /** The position with the single highest probability, when it clears the
      threshold, heads the ranking. */
  lemma TopScoreRanksFirst(probs: seq<real>, labels: seq<string>, threshold: real, j: nat)
    requires Kept(probs, labels, threshold, j)
    requires forall i :: 0 <= i < |probs| && i != j ==> probs[i] < probs[j]
    ensures |Rank(probs, labels, threshold)| > 0
    ensures Rank(probs, labels, threshold)[0] == Candidate(j, labels[j], probs[j])
  {
    var ranked := Rank(probs, labels, threshold);
    var k :| 0 <= k < |ranked| && ranked[k].index == j;
    assert ranked[0].score >= ranked[k].score;
  }
}
