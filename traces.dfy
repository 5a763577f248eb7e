/**
 * Concrete runs of the two sessions. The runs on `Game.Session` replay click
 * and timer sequences the code as written accepts with results the game itself
 * rules out (one stop-factor mistake ends the game; a won game has reviewed
 * every listing); the last runs the first of those click sequences on
 * `GuardedGame.GuardedSession`. Each run is stated for any listing of the
 * classification it needs.
 */
module Traces {
  import opened Wrappers
  import opened Scoring
  import opened Timers
  import opened Game
  import opened GuardedGame

  /**
   * A fatal approval shows no overlay, so the buttons stay enabled and a second
   * press on the same listing is accepted. The loss then runs and leaves the
   * second press's overlay removal and advance pending on the lost screen.
   */
  method FatalApprovalThenSecondPress(listings: seq<Listing>) returns (s: Session, second: bool)
    requires |listings| > 0 && !listings[0].isGood
    ensures fresh(s) && s.Valid() && s.listings == listings && second
    ensures s.phase == Lost && s.cursor == 0 && s.stats == Stats(50, 1, 1)
    ensures s.pending == [ClearTimer, AdvanceTimer(0)]
  {
    s := new Session(listings);
    s.Start();
    var first := s.Decide(true);
    second := s.Decide(false);
    assert s.pending == [LossTimer, ClearTimer, AdvanceTimer(0)];
    s.Fire(0);
  }

  /**
   * On a one-listing session the second press's advance runs after the loss
   * and replaces the lost screen with the won screen, with the second press scored.
   */
  method SecondPressAfterFatalApproval(bad: Listing) returns (second: bool, lost: bool, phase: Phase, stats: Stats)
    requires !bad.isGood
    ensures second && lost
    ensures phase == Won && stats == Stats(50, 1, 1)
  {
    var s;
    s, second := FatalApprovalThenSecondPress([bad]);
    lost := s.phase == Lost;
    s.Fire(0);
    s.Fire(0);
    phase, stats := s.phase, s.stats;
  }

  /**
   * `startGame` cancels no timer: the overlay removal and the advance left from
   * the lost session run in the new one, and together with the new session's own
   * advance move the cursor to the number of listings while the phase is still
   * playing, so no listing is at the cursor and rendering the playing screen throws.
   */
  method StaleAdvanceAfterRestart(bad: Listing, next: Listing) returns (cursor: nat, count: nat, phase: Phase)
    requires !bad.isGood
    ensures count == 2 && cursor == count && phase == Playing
  {
    var s, _ := FatalApprovalThenSecondPress([bad, next]);
    count := |s.listings|;
    s.Start();
    var third := s.Decide(false);
    assert third && s.pending == [ClearTimer, AdvanceTimer(0), ClearTimer, AdvanceTimer(0)];
    s.Fire(0);
    s.Fire(0);
    s.Fire(0);
    s.Fire(0);
    cursor, phase := s.cursor, s.phase;
  }

  /**
   * A stale advance that finds the last listing ends a freshly started session
   * as won before any decision is made, so the accuracy shown divides by zero.
   */
  method WonWithoutDecisions(bad: Listing) returns (phase: Phase, stats: Stats)
    requires !bad.isGood
    ensures phase == Won && stats.totalDecisions == 0
  {
    var s, _ := FatalApprovalThenSecondPress([bad]);
    s.Start();
    s.Fire(0);
    s.Fire(0);
    phase, stats := s.phase, s.stats;
  }

  /**
   * The same presses on the guarded session: the second press is refused, the
   * loss is final and leaves nothing pending, and `startGame` then begins a
   * clean session.
   */
  method GuardedSecondPress(bad: Listing) returns (first: bool, second: bool, lostPhase: Phase, idle: bool, phase: Phase, stats: Stats)
    requires !bad.isGood
    ensures first && !second
    ensures lostPhase == Lost && idle
    ensures phase == Playing && stats == Stats(0, 0, 0)
  {
    var s := new GuardedSession([bad]);
    s.Start();
    first := s.Decide(true);
    assert s.pending == [LossTimer];
    second := s.Decide(false);
    s.Fire(0);
    lostPhase, idle := s.phase, s.pending == [];
    s.Start();
    phase, stats := s.phase, s.stats;
  }
}
