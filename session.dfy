/**
 * The game session of `App` exactly as written: five pieces of component state,
 * the `startGame` and `handleDecision` handlers, `showFeedback`, the two
 * `setTimeout` continuations, and the `disabled={!!feedback}` guard on the
 * decision buttons. Pending callbacks are kept in `pending`, in scheduling order.
 */
module Game {
  import opened Wrappers
  import opened Scoring
  import opened Timers

  /** `GameState`. */
  datatype Phase = Intro | Playing | Won | Lost

  class Session {
    /** `LOCATIONS`: the fixed listing store. */
    const listings: seq<Listing>
    var phase: Phase
    var cursor: nat
    var stats: Stats
    var failReason: string
    var feedback: Option<Feedback>
    /** `setTimeout` callbacks scheduled and not yet run, oldest first. */
    var pending: seq<Timer>
    /** How many decisions of each kind were applied since the last `startGame`. */
    ghost var counts: Counts

    /** The statistics always summarise the decisions of the current session. */
    ghost predicate Valid()
      reads this
    {
      |listings| > 0 && stats == Earned(counts)
    }

    /** The initial `useState` values. */
    constructor (listings: seq<Listing>)
      requires |listings| > 0
      ensures Valid() && this.listings == listings
      ensures phase == Intro && cursor == 0 && stats == Stats(0, 0, 0)
      ensures failReason == "" && feedback == None && pending == []
    {
      this.listings := listings;
      phase, cursor, stats := Intro, 0, Stats(0, 0, 0);
      failReason, feedback, pending := "", None, [];
      counts := Counts(0, 0, 0, 0);
    }

    /**
     * `startGame`, offered on the intro, lost and won screens: it resets every
     * piece of state but cancels no pending timer.
     */
    method Start()
      requires Valid() && phase != Playing
      modifies this`phase, this`cursor, this`stats, this`failReason, this`feedback, this`counts
      ensures Valid()
      ensures phase == Playing && cursor == 0 && stats == Stats(0, 0, 0)
      ensures failReason == "" && feedback == None && pending == old(pending)
    {
      phase := Playing;
      cursor := 0;
      stats := Stats(0, 0, 0);
      failReason := "";
      feedback := None;
      counts := Counts(0, 0, 0, 0);
    }

    /**
     * A decision button can be pressed: the playing screen is shown, which
     * needs a listing at the cursor, and the buttons are not disabled by an overlay.
     */
    predicate DecisionEnabled(): (b: bool)
      reads this
      ensures b ==> feedback.None? && cursor < |listings|
    {
      phase == Playing && feedback.None? && cursor < |listings|
    }

    /** `showFeedback`: show the overlay and schedule its removal. */
    method ShowFeedback(f: Feedback)
      modifies this`feedback, this`pending
      ensures feedback == Some(f) && pending == old(pending) + [ClearTimer]
    {
      feedback := Some(f);
      pending := pending + [ClearTimer];
    }

    /**
     * A press of the approve (`approved`) or reject button. A press on a
     * disabled or absent button changes nothing; otherwise `handleDecision`
     * applies the outcome table to the listing at the cursor and schedules
     * either the loss or the advance continuation, which captures the cursor.
     */
    method Decide(approved: bool) returns (accepted: bool)
      requires Valid()
      modifies this`stats, this`failReason, this`feedback, this`pending, this`counts
      ensures Valid()
      ensures accepted == old(DecisionEnabled())
      ensures !accepted ==>
        && stats == old(stats) && failReason == old(failReason)
        && feedback == old(feedback) && pending == old(pending) && counts == old(counts)
      ensures accepted ==>
        var d := Decision(listings[cursor].isGood, approved);
        var o := Evaluate(d);
        && counts == Count(old(counts), d)
        && stats == (if o.fatal then old(stats) else Apply(old(stats), o))
        && feedback == o.feedback
        && failReason == (if o.fatal then FailReason(listings[cursor]) else old(failReason))
        && pending == old(pending) + (if o.fatal then [LossTimer] else [ClearTimer, AdvanceTimer(cursor)])
    {
      if !DecisionEnabled() {
        return false;
      }
      var location := listings[cursor];
      counts := Count(counts, Decision(location.isGood, approved));
      var isLoss := false;
      if approved {
        if location.isGood {
          stats := Stats(stats.score + 100, stats.correctDecisions + 1, stats.totalDecisions + 1);
          ShowFeedback(Feedback(GoodApprovedMessage, Success));
        } else {
          isLoss := true;
          failReason := FailReason(location);
        }
      } else {
        if !location.isGood {
          stats := Stats(stats.score + 50, stats.correctDecisions + 1, stats.totalDecisions + 1);
          ShowFeedback(Feedback(BadRejectedMessage, Success));
        } else {
          stats := Stats(stats.score, stats.correctDecisions, stats.totalDecisions + 1);
          ShowFeedback(Feedback(GoodRejectedMessage, Warning));
        }
      }
      if isLoss {
        pending := pending + [LossTimer];
      } else {
        pending := pending + [AdvanceTimer(cursor)];
      }
      accepted := true;
    }

    /** The loss continuation. */
    method ResolveLoss()
      modifies this`phase
      ensures phase == Lost
    {
      phase := Lost;
    }

    /** The continuation scheduled by `showFeedback`. */
    method ClearFeedback()
      modifies this`feedback
      ensures feedback == None
    {
      feedback := None;
    }

    /**
     * The advance continuation: it tests the cursor it captured when the
     * decision was made, but increments the cursor's value at the time it runs.
     */
    method Advance(captured: nat)
      modifies this`cursor, this`phase
      ensures captured < |listings| - 1 ==> cursor == old(cursor) + 1 && phase == old(phase)
      ensures captured >= |listings| - 1 ==> cursor == old(cursor) && phase == Won
    {
      if captured < |listings| - 1 {
        cursor := cursor + 1;
      } else {
        phase := Won;
      }
    }

    /** The browser runs pending timer `k`, which must be one that can be due first. */
    method Fire(k: nat)
      requires Valid() && MayRunNext(pending, k)
      modifies this`phase, this`cursor, this`feedback, this`pending
      ensures Valid()
      ensures pending == RemoveAt(old(pending), k)
      ensures match old(pending[k])
        case LossTimer =>
          phase == Lost && cursor == old(cursor) && feedback == old(feedback)
        case ClearTimer =>
          feedback == None && phase == old(phase) && cursor == old(cursor)
        case AdvanceTimer(c) =>
          && feedback == old(feedback)
          && (if c < |listings| - 1 then cursor == old(cursor) + 1 && phase == old(phase)
              else cursor == old(cursor) && phase == Won)
    {
      var t := pending[k];
      pending := RemoveAt(pending, k);
      match t
      case LossTimer => ResolveLoss();
      case ClearTimer => ClearFeedback();
      case AdvanceTimer(c) => Advance(c);
    }
  }
}
