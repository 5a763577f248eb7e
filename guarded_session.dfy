/**
 * The session with the guard the game needs for its own rules (one stop-factor
 * mistake ends the game, a finished game has reviewed every listing) and the
 * code lacks: the decision buttons stay disabled while any continuation of the last decision
 * is pending (the loss, the overlay's removal or the advance), not only while
 * the overlay is up. Everything else is as in `Game.Session`. With that guard
 * a session takes one decision per listing, a loss is final, the cursor never
 * leaves the listings and a won session has decided every listing.
 */
module GuardedGame {
  import opened Wrappers
  import opened Scoring
  import opened Timers
  import opened Game

  /**
   * The four situations a session can be in, given its pending callbacks:
   * idle; an overlay up with the advance due after it; the advance alone due;
   * or a loss due. In each, the decision count says how far the cursor has got.
   */
  ghost predicate Situation(pending: seq<Timer>, feedback: Option<Feedback>, phase: Phase,
                            cursor: nat, total: nat, explained: bool)
  {
    if |pending| == 0 then
      && feedback.None?
      && total == cursor + (if phase == Won then 1 else 0)
      && (phase == Lost ==> explained)
    else if |pending| == 1 then
      && feedback.None? && phase == Playing
      && (if pending[0] == LossTimer then total == cursor && explained
          else pending[0] == AdvanceTimer(cursor) && total == cursor + 1)
    else
      && |pending| == 2 && pending[0] == ClearTimer && pending[1] == AdvanceTimer(cursor)
      && feedback.Some? && phase == Playing && total == cursor + 1
  }

  /** The listing at `cursor` is bad and `failReason` is its explanation. */
  ghost predicate LossExplained(listings: seq<Listing>, cursor: nat, failReason: string)
  {
    cursor < |listings| && !listings[cursor].isGood && failReason == FailReason(listings[cursor])
  }

  /** The invariant of a guarded session, over the values of its fields. */
  ghost predicate Inv(listings: seq<Listing>, phase: Phase, cursor: nat, stats: Stats, failReason: string,
                      feedback: Option<Feedback>, pending: seq<Timer>)
  {
    && |listings| > 0 && cursor < |listings|
    && (phase == Won ==> cursor == |listings| - 1)
    && Situation(pending, feedback, phase, cursor, stats.totalDecisions,
                 LossExplained(listings, cursor, failReason))
  }

  /**
   * What the invariant promises the player: the cursor names a listing; off the
   * playing screen nothing is pending, so only `startGame` changes the phase;
   * a lost session was lost on a bad listing, explained by `failReason`, after a
   * verdict on every earlier listing; a won session has counted a decision for
   * every listing, so the accuracy shown has a non-zero divisor.
   */
  lemma InvConsequences(listings: seq<Listing>, phase: Phase, cursor: nat, stats: Stats, failReason: string,
                        feedback: Option<Feedback>, pending: seq<Timer>)
    requires Inv(listings, phase, cursor, stats, failReason, feedback, pending)
    ensures cursor < |listings|
    ensures phase != Playing ==> pending == [] && feedback.None?
    ensures phase == Lost ==>
      && !listings[cursor].isGood && failReason == FailReason(listings[cursor])
      && stats.totalDecisions == cursor
    ensures phase == Won ==> stats.totalDecisions == |listings| >= 1
  {
  }

  /** `startGame` from the intro, lost or won screen begins an idle session. */
  lemma InvStart(listings: seq<Listing>, phase: Phase, cursor: nat, stats: Stats, failReason: string,
                 feedback: Option<Feedback>, pending: seq<Timer>)
    requires Inv(listings, phase, cursor, stats, failReason, feedback, pending)
    requires phase != Playing
    ensures pending == []
    ensures Inv(listings, Playing, 0, Stats(0, 0, 0), "", None, pending)
  {
  }

  /**
   * An accepted decision keeps the invariant, stated over the fields' values
   * before (unprimed) and after (primed) the decision.
   */
  lemma InvDecide(listings: seq<Listing>, phase: Phase, cursor: nat, stats: Stats, failReason: string,
                  feedback: Option<Feedback>, pending: seq<Timer>, approved: bool,
                  stats': Stats, failReason': string, feedback': Option<Feedback>, pending': seq<Timer>)
    requires Inv(listings, phase, cursor, stats, failReason, feedback, pending)
    requires phase == Playing && feedback.None? && pending == []
    requires
      var o := Evaluate(Decision(listings[cursor].isGood, approved));
      && stats' == (if o.fatal then stats else Apply(stats, o)) && feedback' == o.feedback
      && failReason' == (if o.fatal then FailReason(listings[cursor]) else failReason)
      && pending' == (if o.fatal then [LossTimer] else [ClearTimer, AdvanceTimer(cursor)])
    ensures Inv(listings, phase, cursor, stats', failReason', feedback', pending')
  {
  }

  /**
   * Only the head of the pending list can run, and running it keeps the
   * invariant; an advance always captured the live cursor.
   */
  lemma InvFire(listings: seq<Listing>, phase: Phase, cursor: nat, stats: Stats, failReason: string,
                feedback: Option<Feedback>, pending: seq<Timer>, k: nat)
    requires Inv(listings, phase, cursor, stats, failReason, feedback, pending)
    requires MayRunNext(pending, k)
    ensures k == 0 && phase == Playing
    ensures pending[0] == LossTimer ==>
      Inv(listings, Lost, cursor, stats, failReason, feedback, pending[1..])
    ensures pending[0] == ClearTimer ==>
      Inv(listings, phase, cursor, stats, failReason, None, pending[1..])
    ensures pending[0].AdvanceTimer? ==>
      && pending[0].captured == cursor
      && (if cursor < |listings| - 1
          then Inv(listings, phase, cursor + 1, stats, failReason, feedback, pending[1..])
          else Inv(listings, Won, cursor, stats, failReason, feedback, pending[1..]))
  {
    if pending == [ClearTimer, AdvanceTimer(cursor)] {
      assert k > 0 ==> Delay(pending[1]) < Delay(pending[0]);
      assert pending[1..] == [AdvanceTimer(cursor)];
    }
  }

  class GuardedSession {
    const listings: seq<Listing>
    var phase: Phase
    var cursor: nat
    var stats: Stats
    var failReason: string
    var feedback: Option<Feedback>
    var pending: seq<Timer>

    ghost predicate Valid()
      reads this
    {
      Inv(listings, phase, cursor, stats, failReason, feedback, pending)
    }

    constructor (listings: seq<Listing>)
      requires |listings| > 0
      ensures Valid() && this.listings == listings
      ensures phase == Intro && cursor == 0 && stats == Stats(0, 0, 0)
      ensures failReason == "" && feedback == None && pending == []
    {
      this.listings := listings;
      phase, cursor, stats := Intro, 0, Stats(0, 0, 0);
      failReason, feedback, pending := "", None, [];
    }

    /** `startGame`, pressed on the intro, lost or won screen; nothing is pending there. */
    method Start()
      requires Valid() && phase != Playing
      modifies this`phase, this`cursor, this`stats, this`failReason, this`feedback
      ensures Valid()
      ensures phase == Playing && cursor == 0
      ensures stats.score == 0 && stats.correctDecisions == 0 && stats.totalDecisions == 0
      ensures failReason == "" && feedback == None && pending == []
    {
      InvStart(listings, phase, cursor, stats, failReason, feedback, pending);
      phase, cursor, stats := Playing, 0, Stats(0, 0, 0);
      failReason, feedback := "", None;
    }

    /**
     * The buttons are enabled on the playing screen while no continuation of the
     * last decision is pending; in a valid session that also means no overlay is up.
     */
    predicate DecisionEnabled(): (b: bool)
      reads this
      ensures Valid() ==> (b <==> phase == Playing && pending == [])
    {
      phase == Playing && feedback.None? && pending == []
    }

    /** A press of the approve (`approved`) or reject button; `handleDecision` when enabled. */
    method Decide(approved: bool) returns (accepted: bool)
      requires Valid()
      modifies this`stats, this`failReason, this`feedback, this`pending
      ensures Valid()
      ensures accepted == old(DecisionEnabled())
      ensures !accepted ==>
        && stats == old(stats) && failReason == old(failReason)
        && feedback == old(feedback) && pending == old(pending)
      ensures accepted ==>
        var o := Evaluate(Decision(listings[cursor].isGood, approved));
        && stats == (if o.fatal then old(stats) else Apply(old(stats), o))
        && feedback == o.feedback
        && failReason == (if o.fatal then FailReason(listings[cursor]) else old(failReason))
        && pending == (if o.fatal then [LossTimer] else [ClearTimer, AdvanceTimer(cursor)])
    {
      accepted := DecisionEnabled();
      if !accepted {
        return;
      }
      var location := listings[cursor];
      var o := Evaluate(Decision(location.isGood, approved));
      var stats' := if o.fatal then stats else Apply(stats, o);
      var failReason' := if o.fatal then FailReason(location) else failReason;
      var pending' := if o.fatal then [LossTimer] else [ClearTimer, AdvanceTimer(cursor)];
      InvDecide(listings, phase, cursor, stats, failReason, feedback, pending, approved,
                stats', failReason', o.feedback, pending');
      stats, failReason, feedback, pending := stats', failReason', o.feedback, pending';
    }

    /**
     * The browser runs pending callback `k`. Only the oldest can be due, and
     * an advance finds the cursor where its decision left it.
     */
    method Fire(k: nat)
      requires Valid() && MayRunNext(pending, k)
      modifies this`phase, this`cursor, this`feedback, this`pending
      ensures Valid()
      ensures k == 0 && old(phase) == Playing && pending == old(pending[1..])
      ensures match old(pending[0])
        case LossTimer =>
          phase == Lost && cursor == old(cursor) && feedback == old(feedback)
        case ClearTimer =>
          feedback == None && phase == old(phase) && cursor == old(cursor)
        case AdvanceTimer(c) =>
          && c == old(cursor) && feedback == old(feedback)
          && (if c < |listings| - 1 then cursor == old(cursor) + 1 && phase == old(phase)
              else cursor == old(cursor) && phase == Won)
    {
      InvFire(listings, phase, cursor, stats, failReason, feedback, pending, k);
      var t := pending[k];
      pending := RemoveAt(pending, k);
      match t
      case LossTimer =>
        phase := Lost;
      case ClearTimer =>
        feedback := None;
      case AdvanceTimer(c) =>
        if c < |listings| - 1 {
          cursor := cursor + 1;
        } else {
          phase := Won;
        }
    }
  }
}
