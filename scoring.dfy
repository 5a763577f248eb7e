/**
 * The decision engine of the game: the listing record as the game logic reads it,
 * the player's running statistics, and the four-way outcome table that
 * `handleDecision` applies to one approve/reject choice.
 */
module Scoring {
  import opened Wrappers

  /** A listing reduced to the two fields the session logic reads. */
  datatype Listing = Listing(isGood: bool, stopFactorReason: Option<string>)

  /** `GameStats`: the three counters shown to the player. */
  datatype Stats = Stats(score: nat, correctDecisions: nat, totalDecisions: nat)

  /** Component-wise order on statistics: no counter went down. */
  predicate StatsLe(a: Stats, b: Stats)
  {
    a.score <= b.score && a.correctDecisions <= b.correctDecisions && a.totalDecisions <= b.totalDecisions
  }

  datatype FeedbackKind = Success | Warning

  /** The three localized overlay texts, kept opaque. */
  datatype Message = GoodApprovedMessage | BadRejectedMessage | GoodRejectedMessage

  /** The overlay record `{ message, type }`. */
  datatype Feedback = Feedback(message: Message, kind: FeedbackKind)

  /** One player choice on one listing: the listing's classification and whether it was approved. */
  datatype Decision = Decision(isGood: bool, approved: bool)

  /** What one decision does: the stat increments, the overlay to show (if any) and whether it ends the session. */
  datatype Outcome = Outcome(scoreDelta: nat, correctDelta: nat, totalDelta: nat,
                             feedback: Option<Feedback>, fatal: bool)

  /** The outcome table of `handleDecision`. */
  function Evaluate(d: Decision): (o: Outcome)
    ensures o.correctDelta <= o.totalDelta <= 1
  {
    if d.approved then
      if d.isGood then Outcome(100, 1, 1, Some(Feedback(GoodApprovedMessage, Success)), false)
      else Outcome(0, 0, 0, None, true)
    else
      if !d.isGood then Outcome(50, 1, 1, Some(Feedback(BadRejectedMessage, Success)), false)
      else Outcome(0, 0, 1, Some(Feedback(GoodRejectedMessage, Warning)), false)
  }

  /** The table's properties. */
  lemma OutcomeTable(d: Decision)
    // only approving a bad listing ends the session, and exactly those decisions show no overlay
    ensures Evaluate(d).fatal <==> d.approved && !d.isGood
    ensures Evaluate(d).feedback.None? <==> Evaluate(d).fatal
    // a decision is correct exactly when it agrees with the listing's classification;
    // correct decisions, and only they, earn points and a success overlay
    ensures Evaluate(d).correctDelta == (if d.approved == d.isGood then 1 else 0)
    ensures Evaluate(d).scoreDelta > 0 <==> d.approved == d.isGood
    ensures Evaluate(d).feedback.Some? ==> (Evaluate(d).feedback.value.kind == Success <==> d.approved == d.isGood)
    // an approval is worth twice a rejection
    ensures Evaluate(d).scoreDelta == (if d.approved then 100 else 50) * Evaluate(d).correctDelta
    // every decision that does not end the session counts once
    ensures Evaluate(d).totalDelta == (if Evaluate(d).fatal then 0 else 1)
  {
  }

  /** The functional `setStats(prev => ...)` update of one outcome. */
  function Apply(s: Stats, o: Outcome): (r: Stats)
    ensures StatsLe(s, r)
  {
    Stats(s.score + o.scoreDelta, s.correctDecisions + o.correctDelta, s.totalDecisions + o.totalDelta)
  }

  /** The text shown when a listing without a stop-factor explanation is approved. */
  const FallbackReason: string := "Вы одобрили локацию с критическим недостатком."

  /**
   * The failure explanation recorded on a fatal approval: the listing's
   * `stopFactorReason || fallback`. JavaScript's `||` also falls back on an
   * empty explanation, since "" is falsy.
   */
  function FailReason(l: Listing): (r: string)
    ensures r != ""
    ensures l.stopFactorReason.Some? && l.stopFactorReason.value != "" ==> r == l.stopFactorReason.value
    ensures l.stopFactorReason.None? || l.stopFactorReason.value == "" ==> r == FallbackReason
  {
    match l.stopFactorReason
    case Some(reason) => if reason != "" then reason else FallbackReason
    case None => FallbackReason
  }

  /** How many decisions of each kind have been made. */
  datatype Counts = Counts(approvedGood: nat, approvedBad: nat, rejectedBad: nat, rejectedGood: nat)

  /** `c` with one more decision `d`. */
  function Count(c: Counts, d: Decision): (r: Counts)
  {
    match d
    case Decision(true, true) => c.(approvedGood := c.approvedGood + 1)
    case Decision(false, true) => c.(approvedBad := c.approvedBad + 1)
    case Decision(false, false) => c.(rejectedBad := c.rejectedBad + 1)
    case Decision(true, false) => c.(rejectedGood := c.rejectedGood + 1)
  }

  /**
   * The statistics that decisions in the numbers `c` earn: score = 100 x (good
   * listings approved) + 50 x (bad listings rejected); the correct decisions
   * are those two kinds; every decision except a fatal approval is counted.
   */
  function Earned(c: Counts): (r: Stats)
  {
    Stats(50 * (2 * c.approvedGood + c.rejectedBad),
          c.approvedGood + c.rejectedBad,
          c.approvedGood + c.rejectedBad + c.rejectedGood)
  }

  /** One more decision changes the statistics exactly as `handleDecision`'s `setStats(prev => ...)` does. */
  lemma EarnedCount(c: Counts, d: Decision)
    ensures Earned(Count(c, d)) == Apply(Earned(c), Evaluate(d))
  {
  }

  /** The statistics after `setStats` has applied each decision of `log` in turn to zeroed statistics. */
  function Replay(log: seq<Decision>): (r: Stats)
    ensures r.correctDecisions <= r.totalDecisions <= |log|
  {
    if log == [] then Stats(0, 0, 0) else Apply(Replay(log[..|log| - 1]), Evaluate(log[|log| - 1]))
  }

  /** How many decisions of each kind `log` holds. */
  function CountsOf(log: seq<Decision>): (r: Counts)
  {
    var m := multiset(log);
    Counts(m[Decision(true, true)], m[Decision(false, true)], m[Decision(false, false)], m[Decision(true, false)])
  }

  /** Appending a decision to a log counts it once more. */
  lemma CountsOfSnoc(init: seq<Decision>, d: Decision)
    ensures CountsOf(init + [d]) == Count(CountsOf(init), d)
  {
    assert multiset(init + [d]) == multiset(init) + multiset{d};
  }

  /** Replaying decisions one by one earns what their numbers earn, whatever their order. */
  lemma {:induction false} ReplayEarned(log: seq<Decision>)
    ensures Replay(log) == Earned(CountsOf(log))
  {
    if log != [] {
      var init, d := log[..|log| - 1], log[|log| - 1];
      assert log == init + [d];
      ReplayEarned(init);
      CountsOfSnoc(init, d);
      EarnedCount(CountsOf(init), d);
      assert Replay(log) == Apply(Replay(init), Evaluate(d));
    } else {
      assert multiset(log) == multiset{};
    }
  }

  /** The numbers of the four kinds of decision add up to the number of decisions. */
  lemma {:induction false} CountsPartition(log: seq<Decision>)
    ensures var c := CountsOf(log); c.approvedGood + c.approvedBad + c.rejectedBad + c.rejectedGood == |log|
  {
    if log != [] {
      CountsPartition(log[1..]);
      assert log == [log[0]] + log[1..];
      assert multiset(log) == multiset{log[0]} + multiset(log[1..]);
      assert CountsOf(log) == Count(CountsOf(log[1..]), log[0]);
    }
  }

  /** Every decision except a fatal approval counts, and no more are correct than are counted. */
  lemma ReplayTotal(log: seq<Decision>)
    ensures Replay(log).totalDecisions == |log| - CountsOf(log).approvedBad
    ensures Replay(log).correctDecisions <= Replay(log).totalDecisions <= |log|
  {
    ReplayEarned(log);
    CountsPartition(log);
  }

  /** Further decisions never decrease any counter. */
  lemma {:induction false} ReplayMonotone(earlier: seq<Decision>, later: seq<Decision>)
    ensures StatsLe(Replay(earlier), Replay(earlier + later))
  {
    if later != [] {
      var init, d := later[..|later| - 1], later[|later| - 1];
      assert earlier + later == (earlier + init) + [d];
      ReplayMonotone(earlier, init);
    } else {
      assert earlier + later == earlier;
    }
  }

  /** Approving n good listings in a row scores 100 points each and counts n correct decisions. */
  lemma {:induction false} AllApprovedReplay(log: seq<Decision>)
    requires forall i :: 0 <= i < |log| ==> log[i] == Decision(true, true)
    ensures Replay(log) == Stats(100 * |log|, |log|, |log|)
  {
    if log != [] {
      AllApprovedReplay(log[..|log| - 1]);
    }
  }

  /**
   * A run over good listings in which exactly one is rejected (a missed
   * opportunity) and all others approved scores 100 x (n - 1), with n - 1
   * correct decisions out of n.
   */
  lemma {:induction false} OneMissedOpportunity(log: seq<Decision>, missed: nat)
    requires missed < |log|
    requires forall i :: 0 <= i < |log| ==> log[i] == Decision(true, i != missed)
    ensures Replay(log) == Stats(100 * (|log| - 1), |log| - 1, |log|)
  {
    var init := log[..|log| - 1];
    if missed == |log| - 1 {
      AllApprovedReplay(init);
    } else {
      OneMissedOpportunity(init, missed);
    }
  }
}
