/**
 * The scoring loop of val.py: for each sampled label the classifier's
 * prediction is judged precise (the same label), correct (another label of the
 * same garbage class) or wrong, and three counters are kept.
 */
module Validation {
  import opened Labels

  datatype Verdict = Precise | Correct | Wrong

  /**
   * One round: the position in `labels` of the label that was sampled, and
   * the position the classifier predicted.
   */
  datatype Sample = Sample(chosen: nat, predicted: nat)

  predicate InRange(labels: seq<Label>, s: Sample)
  {
    s.chosen < |labels| && s.predicted < |labels|
  }

  /** The verdict on one round: the indices first, then the class names. */
  function Judge(labels: seq<Label>, s: Sample): Verdict
    requires InRange(labels, s)
  {
    var truth := labels[s.chosen];
    var guess := labels[s.predicted];
    if truth.idx == guess.idx then Precise
    else if truth.className == guess.className then Correct
    else Wrong
  }

  /** How many of the rounds receive verdict `v`. */
  function CountOf(labels: seq<Label>, samples: seq<Sample>, v: Verdict): nat
    requires forall k :: 0 <= k < |samples| ==> InRange(labels, samples[k])
  {
    if |samples| == 0 then 0
    else CountOf(labels, samples[..|samples| - 1], v) + (if Judge(labels, samples[|samples| - 1]) == v then 1 else 0)
  }

  /** Every round is counted under exactly one verdict, so the three counters add up to the rounds. */
  lemma {:induction false} CountsPartitionRounds(labels: seq<Label>, samples: seq<Sample>)
    requires forall k :: 0 <= k < |samples| ==> InRange(labels, samples[k])
    ensures CountOf(labels, samples, Precise) + CountOf(labels, samples, Correct) + CountOf(labels, samples, Wrong)
            == |samples|
  {
    if |samples| > 0 {
      CountsPartitionRounds(labels, samples[..|samples| - 1]);
    }
  }

  /**
   * The tally of val.py over the rounds (the classifier's choices are inputs):
   * each counter holds the number of rounds with its verdict, and together
   * they count every round.
   */
  method Tally(labels: seq<Label>, samples: seq<Sample>) returns (precise: nat, correct: nat, wrong: nat)
    requires forall k :: 0 <= k < |samples| ==> InRange(labels, samples[k])
    ensures precise == CountOf(labels, samples, Precise)
    ensures correct == CountOf(labels, samples, Correct)
    ensures wrong == CountOf(labels, samples, Wrong)
    ensures precise + correct + wrong == |samples|
  {
    precise, correct, wrong := 0, 0, 0;
    var i := 0;
    while i < |samples|
      invariant 0 <= i <= |samples|
      invariant precise == CountOf(labels, samples[..i], Precise)
      invariant correct == CountOf(labels, samples[..i], Correct)
      invariant wrong == CountOf(labels, samples[..i], Wrong)
    {
      assert samples[..i + 1][..i] == samples[..i];
      var truth := labels[samples[i].chosen];
      var guess := labels[samples[i].predicted];
      if truth.idx == guess.idx {
        precise := precise + 1;
      } else if truth.className == guess.className {
        correct := correct + 1;
      } else {
        wrong := wrong + 1;
      }
      i := i + 1;
    }
    assert samples[..i] == samples;
    CountsPartitionRounds(labels, samples);
  }

  /** The labels carry pairwise different indices, as a successful load guarantees. */
  predicate DistinctIndices(labels: seq<Label>)
  {
    forall a, b :: 0 <= a < |labels| && 0 <= b < |labels| && a != b ==> labels[a].idx != labels[b].idx
  }

  /**
   * With distinct indices a round is precise exactly when the predicted label
   * is the sampled one; it is correct exactly when they differ but share a
   * class, and wrong exactly when the classes differ.
   */
  lemma JudgeMeaning(labels: seq<Label>, s: Sample)
    requires DistinctIndices(labels) && InRange(labels, s)
    ensures Judge(labels, s) == Precise <==> s.chosen == s.predicted
    ensures Judge(labels, s) == Correct <==>
              s.chosen != s.predicted && labels[s.chosen].className == labels[s.predicted].className
    ensures Judge(labels, s) == Wrong <==> labels[s.chosen].className != labels[s.predicted].className
  {
  }

  /** A successful load yields labels with distinct indices. */
  lemma LoadedLabelsDistinct(labelData: Table, selectData: Table)
    requires LabelsOf(labelData, selectData, Paired(labelData, selectData)).Ok?
    ensures DistinctIndices(LabelsOf(labelData, selectData, Paired(labelData, selectData)).value)
  {
    LabelsOfOk(labelData, selectData, Paired(labelData, selectData));
  }
}
