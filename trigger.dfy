/**
 * The wake-word trigger rule: the model's scores are an ordered list of
 * (label, score) pairs, and the first label whose score is strictly above the
 * threshold triggers; the labels after it are not looked at.
 */
module WakeWordTrigger {
  import opened Wrappers

  /** One entry of the model's prediction, in dictionary iteration order. */
  type Score = (string, real)

  /** Index of the first entry whose score is strictly greater than `threshold`. */
  function FirstOver(preds: seq<Score>, threshold: real): (r: Option<nat>)
    ensures r.Some? ==> r.value < |preds| && preds[r.value].1 > threshold
    ensures r.Some? ==> forall j :: 0 <= j < r.value ==> preds[j].1 <= threshold
    ensures r.None? <==> forall j :: 0 <= j < |preds| ==> preds[j].1 <= threshold
  {
    if preds == [] then None
    else if preds[0].1 > threshold then Some(0)
    else match FirstOver(preds[1..], threshold)
      case None => None
      case Some(k) => Some(k + 1)
  }

  /**
   * Entries after the first qualifying one do not matter: whatever follows a prefix
   * that already triggers, the same label triggers.
   */
  lemma {:induction false} FirstOverIgnoresRest(p: seq<Score>, q: seq<Score>, threshold: real)
    requires FirstOver(p, threshold).Some?
    ensures FirstOver(p + q, threshold) == FirstOver(p, threshold)
  {
    if p[0].1 <= threshold {
      assert (p + q)[1..] == p[1..] + q;
      FirstOverIgnoresRest(p[1..], q, threshold);
    }
  }

  /** An entry whose score equals the threshold is never the one that triggers. */
  lemma AtThresholdNeverTriggers(preds: seq<Score>, threshold: real, i: nat)
    requires i < |preds| && preds[i].1 == threshold
    ensures FirstOver(preds, threshold) != Some(i)
  {
  }

  /** Scores at or below the threshold, even ones equal to it, trigger nothing. */
  lemma AtOrBelowThresholdNoTrigger(preds: seq<Score>, threshold: real)
    requires forall j :: 0 <= j < |preds| ==> preds[j].1 <= threshold
    requires exists j :: 0 <= j < |preds| && preds[j].1 == threshold
    ensures FirstOver(preds, threshold) == None
  {
  }
}
