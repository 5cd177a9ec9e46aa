/** The best-score rule: localStorage['bestScore'] as an optional integer and
    the update saveBestScore makes to it. */
module BestScore {
  import opened Common

  datatype Option<T> = None | Some(value: T)

  /** saveBestScore. `stored` is the stored text after parseInt: None when the
      key is absent or does not parse (both read as false), otherwise the
      parsed integer. A missing or zero best is overwritten by the score; any
      other best is replaced only by a higher score. */
  function SavedBest(stored: Option<int>, score: nat): (r: Option<int>)
    ensures r.Some? && r.value >= score
    ensures stored.None? || stored.value == 0 ==> r == Some(score)
    ensures stored.Some? && stored.value != 0 ==> r == Some(Max(stored.value, score))
    ensures stored.Some? ==> r.value >= stored.value
  {
    if stored.None? || stored.value == 0 || score > stored.value then Some(score) else stored
  }

  /** Saving the same score twice leaves what the first save stored; this is
      what makes the repeated game-over saves of one frame after another
      harmless. */
  lemma SaveIsIdempotent(stored: Option<int>, score: nat)
    ensures SavedBest(SavedBest(stored, score), score) == SavedBest(stored, score)
  {
  }

  /** The stored best after saving one score after another, as successive
      runs (and the points within a run) do. */
  function BestAfter(stored: Option<int>, scores: seq<nat>): Option<int> {
    if scores == [] then stored
    else SavedBest(BestAfter(stored, scores[..|scores| - 1]), scores[|scores| - 1])
  }

  /** The stored best never decreases and ends at least as high as every
      score saved, and it is always either the value it started with or one
      of the saved scores. */
  lemma {:induction false} BestAfterIsHighest(stored: Option<int>, scores: seq<nat>)
    ensures var r := BestAfter(stored, scores);
      && (stored.Some? ==> r.Some? && r.value >= stored.value)
      && (forall i :: 0 <= i < |scores| ==> r.Some? && r.value >= scores[i])
      && (r == stored || exists i :: 0 <= i < |scores| && r == Some(scores[i]))
  {
    if scores != [] {
      var front := scores[..|scores| - 1];
      BestAfterIsHighest(stored, front);
      assert forall i :: 0 <= i < |front| ==> front[i] == scores[i];
      var prev := BestAfter(stored, front);
      if prev != stored {
        var i :| 0 <= i < |front| && prev == Some(front[i]);
        assert prev == Some(scores[i]);
      }
    }
  }
}
