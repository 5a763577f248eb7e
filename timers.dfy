/**
 * The deferred callbacks a session schedules with `setTimeout`, and the order
 * in which the browser may run them. No clock is modelled: pending timers are
 * kept in the order they were scheduled, and a timer may run before an
 * earlier-scheduled one only when its delay is strictly shorter.
 */
module Timers {

  /** The three kinds of callback: end the game as lost, clear the overlay, advance after a decision. */
  datatype Timer =
    | LossTimer
    | ClearTimer
    | AdvanceTimer(captured: nat)  // `captured` is the `currentIndex` the closure saw when it was created

  const LossDelay: nat := 500
  const FeedbackDelay: nat := 1500
  const AdvanceDelay: nat := 1500

  function Delay(t: Timer): (ms: nat)
    ensures LossDelay <= ms <= AdvanceDelay
  {
    match t
    case LossTimer => LossDelay
    case ClearTimer => FeedbackDelay
    case AdvanceTimer(_) => AdvanceDelay
  }

  /**
   * Timer `k` of the scheduling-ordered list `ts` may be the next one to run:
   * it overtakes only timers with a longer delay. The oldest pending timer can always run.
   */
  predicate MayRunNext(ts: seq<Timer>, k: int): (b: bool)
    ensures b ==> 0 <= k < |ts|
    ensures k == 0 < |ts| ==> b
  {
    0 <= k < |ts| && forall j :: 0 <= j < k ==> Delay(ts[k]) < Delay(ts[j])
  }

  /** A 1500 ms timer never overtakes anything: it runs only from the head of the list. */
  lemma LongTimerRunsFirst(ts: seq<Timer>, k: int)
    requires MayRunNext(ts, k) && Delay(ts[k]) == AdvanceDelay
    ensures k == 0
  {
    assert k > 0 ==> Delay(ts[k]) < Delay(ts[0]);
  }

  /** The list with its `k`-th element removed. */
  function RemoveAt<T>(s: seq<T>, k: nat): (r: seq<T>)
    requires k < |s|
    ensures |r| == |s| - 1
    ensures forall x :: x in r ==> x in s
  {
    s[..k] + s[k + 1..]
  }

  /**
   * Exactly entry `k` is removed: the entries before it keep their places, the
   * ones after it move up by one, and the removed entry is the only one lost.
   */
  lemma RemoveAtRemovesEntry<T>(s: seq<T>, k: nat)
    requires k < |s|
    ensures forall i :: 0 <= i < |s| - 1 ==> RemoveAt(s, k)[i] == (if i < k then s[i] else s[i + 1])
    ensures multiset(RemoveAt(s, k)) + multiset{s[k]} == multiset(s)
  {
    var r := RemoveAt(s, k);
    assert r == s[..k] + s[k + 1..];
    assert s == s[..k] + [s[k]] + s[k + 1..];
  }
}
