# Location-approval game: session model

The game shows the player a fixed sequence of shop-location listings. For each
listing the player approves or rejects. Approving a good listing scores 100, and
rejecting a bad one scores 50. Rejecting a good listing scores nothing but
counts as a decision. Approving a bad listing ends the game as lost, with the
listing's stop-factor explanation shown. After the last listing the game is won.

This project models the session logic of `App.tsx`:

- the five pieces of component state;
- `startGame`;
- `handleDecision`, with its outcome table and its two `setTimeout` continuations;
- `showFeedback`;
- the `disabled={!!feedback}` guard on the two decision buttons.

Modules:

- `Scoring`: the outcome table and the statistics.
  - `Evaluate` gives, for a listing's classification and the player's choice, the stat increments, the overlay and whether the decision is fatal.
  - `Earned` gives the statistics that a number of decisions of each kind earns.
  - `Replay` applies a log of decisions one by one, as the `setStats(prev => ...)` updates do.
- `Timers`: the three kinds of deferred callback and the order in which the browser may run them.
  - The loss callback has a 500 ms delay; the overlay removal and the advance each have 1500 ms.
  - Pending callbacks are kept in scheduling order.
  - A callback may run before an earlier-scheduled one only when its delay is strictly shorter.
  - No clock is modelled.
- `Game.Session`: the session exactly as the code is written, as a class whose fields are the component state.
  - A ghost field counts the decisions applied since the last `startGame`.
  - The invariant `Valid` ties the shown statistics to that count.
  - `Fire(k)` is the browser running pending callback `k`.
- `GuardedGame.GuardedSession`: the same session with the guard the game's own rules need (see "## Findings"). The intro screen warns that one stop-factor mistake ends the game (App.tsx:98-99), the lost screen explains that mistake (App.tsx:121-126), and the won screen says every application was reviewed (App.tsx:155).
  - The buttons stay disabled while any continuation of the last decision is pending.
  - For this session the invariant `Inv` is proved, and through it those rules: the cursor stays in range, a loss is final, and a won game has decided every listing.
- `Traces`: concrete click-and-timer runs that show the discrepancies of the code as written.

The model follows the code where it departs from those rules or from what its comments suggest:

- The overlay-removal delay equals the advance delay (both are 1500 ms, `App.tsx:79` and `App.tsx:85`). Both callbacks are due at the same moment. The overlay removal was scheduled first (`showFeedback` runs before the advance is scheduled), so it runs just before the advance.
- `startGame` cancels no pending callback, so callbacks of a finished game still run in the next one.

## Model

| member | source | states |
|---|---|---|
| Scoring.Evaluate | App.tsx:31-68 | the outcome table of `handleDecision`; its own contract says a decision adds at most one to `totalDecisions` and is counted correct only if it is counted; `Scoring.OutcomeTable` states the table row by row |
| Scoring.Apply | App.tsx:34-64 | the `setStats(prev => ...)` update of one outcome; no counter decreases |
| Scoring.Replay | App.tsx:34-64 | the statistics after applying each decision of a log in turn to zeroed statistics; `correctDecisions <= totalDecisions <= \|log\|`; `Scoring.ReplayEarned` gives its closed form |
| Scoring.OutcomeTable | App.tsx:31-68 | only approving a bad listing is fatal, and exactly the fatal decisions show no overlay; a decision is correct iff it agrees with the listing, and only correct decisions score and get a success overlay; an approval is worth 100 and a rejection 50; every non-fatal decision counts once in `totalDecisions` |
| Scoring.FailReason | App.tsx:45 | the recorded failure text is never empty; it is the listing's `stopFactorReason` when that is present and non-empty, and the fallback text otherwise (JavaScript `\|\|` also falls back on "") |
| Scoring.EarnedCount | App.tsx:34-64 | one more decision changes the earned statistics exactly as that decision's `setStats(prev => ...)` update does |
| Scoring.CountsOfSnoc | App.tsx:25-81 | appending a decision to a log adds one to the number of decisions of its kind and leaves the other three numbers alone |
| Scoring.ReplayEarned | App.tsx:34-64 | after any sequence of decisions, score = 100 x (good listings approved) + 50 x (bad listings rejected), the correct decisions are those two kinds, and the counted decisions are all but the fatal approvals, whatever the order |
| Scoring.CountsPartition | App.tsx:31-68 | every decision falls into exactly one of the four branches of `handleDecision` |
| Scoring.ReplayTotal | App.tsx:34-64 | `totalDecisions` is the number of decisions less the fatal approvals, and `correctDecisions <= totalDecisions <= \|log\|` for the decision log `log` (the bound is also `Scoring.Replay`'s own contract, restated here beside the equality) |
| Scoring.ReplayMonotone | App.tsx:34-64 | further decisions never decrease the score, `correctDecisions` or `totalDecisions` |
| Scoring.AllApprovedReplay | App.tsx:31-41 | approving n good listings scores 100 x n, with n correct out of n |
| Scoring.OneMissedOpportunity | App.tsx:31-66 | over good listings, rejecting exactly one and approving the rest scores 100 x (n - 1), with n - 1 correct out of n |
| Timers.Delay | App.tsx:70-86 | every callback is due after 500 ms (the loss, App.tsx:71) to 1500 ms (the advance and the overlay removal, App.tsx:79, 85) |
| Timers.LongTimerRunsFirst | App.tsx:73-85 | a 1500 ms callback never runs before one scheduled earlier: it can run only from the head of the pending list |
| Game.Session.DecisionEnabled | App.tsx:273-282 | the decision buttons can be pressed: the playing screen is shown, which needs a listing at the cursor (App.tsx:14), and no overlay disables them (`disabled={!!feedback}`, App.tsx:273, 282); its contract says an enabled button has no overlay and a listing at the cursor; `Game.Session.Decide` uses it as `accepted == old(DecisionEnabled())` |
| GuardedGame.GuardedSession.DecisionEnabled | App.tsx:273-282 | the guard of the corrected session: the guard of App.tsx:273, 282 with `pending == []` added; in a valid session, enabled exactly when the playing screen is shown and nothing is pending; `GuardedGame.GuardedSession.Decide` uses it as `accepted == old(DecisionEnabled())` |
| Timers.MayRunNext | App.tsx:70-86 | the browser may run pending callback `k` next only if `k` is a pending position and every earlier-scheduled callback has a longer delay; the oldest pending callback can always run |
| Timers.RemoveAt | App.tsx:70-86 | running a callback shortens the pending list by one and adds no callback |
| Timers.RemoveAtRemovesEntry | App.tsx:70-86 | exactly the callback that ran is removed: earlier entries keep their places, later ones move up by one, and no other entry is lost |
| GuardedGame.GuardedSession.constructor | App.tsx:8-12 | the initial state of the guarded session, the same as the unguarded one's, satisfying the invariant |
| Game.Session.constructor | App.tsx:8-12 | the initial state: intro screen, cursor 0, zero statistics, no failure text, no overlay, nothing pending |
| Game.Session.Start | App.tsx:17-23 | `startGame`, offered on the intro, lost and won screens (App.tsx:102, 131, 172): playing, cursor 0, zero statistics, empty failure text, no overlay; the pending callbacks are kept |
| Game.Session.ShowFeedback | App.tsx:83-86 | shows the overlay and schedules its removal |
| Game.Session.Decide | App.tsx:25-81 | a press is accepted iff the playing screen shows a listing and no overlay is up (App.tsx:273, 282); an accepted press applies the outcome table's stat change, except on a fatal approval, which leaves the statistics alone and records the failure text and schedules the loss alone; any other accepted press shows its overlay and schedules the overlay's removal and an advance that captures the cursor; a refused press changes nothing; the statistics stay equal to what the session's decisions earned |
| Game.Session.ResolveLoss | App.tsx:71 | the loss callback shows the lost screen |
| Game.Session.ClearFeedback | App.tsx:85 | the overlay-removal callback hides the overlay |
| Game.Session.Advance | App.tsx:73-79 | the advance tests the cursor it captured but increments the live cursor; on the captured last listing it shows the won screen instead |
| Game.Session.Fire | App.tsx:70-86 | running a callback that may be due removes it from the pending list and has exactly that callback's effect on the phase, cursor and overlay |
| GuardedGame.InvConsequences | App.tsx:70-80 | in a guarded session the cursor always names a listing; off the playing screen nothing is pending; a lost game was lost on a bad listing, explained by the failure text, after a verdict on each earlier listing; a won game has counted one decision per listing, so the accuracy's divisor (App.tsx:166) is non-zero |
| GuardedGame.InvStart | App.tsx:17-23 | `startGame` on a guarded session finds nothing pending and begins a session that satisfies the invariant |
| GuardedGame.InvDecide | App.tsx:25-81 | an accepted decision keeps the invariant |
| GuardedGame.InvFire | App.tsx:70-86 | in a guarded session only the oldest pending callback can be due, an advance finds the cursor it captured, and running the callback keeps the invariant |
| GuardedGame.GuardedSession.Start | App.tsx:17-23 | as `startGame`, with nothing pending afterwards |
| GuardedGame.GuardedSession.Decide | App.tsx:25-81 | as `handleDecision`, with presses refused while any continuation of the last decision is pending; the invariant is kept |
| GuardedGame.GuardedSession.Fire | App.tsx:70-86 | only the oldest pending callback runs; an advance increments the cursor it captured, or shows the won screen on the last listing; the invariant is kept |
| Traces.FatalApprovalThenSecondPress | App.tsx:42-46 | after a fatal approval the same listing's reject button is still accepted, and the loss then leaves that press's overlay removal and advance pending on the lost screen, since the buttons are disabled only by the overlay (App.tsx:273, 282) |
| Traces.SecondPressAfterFatalApproval | App.tsx:42-79 | on a one-listing game, a fatal approval followed by a reject press ends on the won screen with the reject scored |
| Traces.StaleAdvanceAfterRestart | App.tsx:73-75 | after a restart, the advance left over from the lost game and the new game's advance move the cursor to the number of listings while the phase is playing, because `startGame` (App.tsx:17-23) cancels nothing; no listing is then at the cursor (App.tsx:14), so rendering the playing screen throws (App.tsx:230) |
| Traces.WonWithoutDecisions | App.tsx:73-77 | a stale advance ends a freshly started game as won with no decision counted, so the accuracy (App.tsx:166) divides by zero |
| Traces.GuardedSecondPress | App.tsx:42-46 | on the guarded session the second press is refused, the loss leaves nothing pending, and a restart begins a clean session |

## Left out

- Rendering of every screen, the progress bar, icons and `components/Features.tsx`: these are presentation only. Only the fact that `startGame` is offered off the playing screen, and the decision buttons on it, is kept.
- The progress percentage (`App.tsx:15`) and the rounded accuracy (`App.tsx:166`): both are floating-point display values. Only the divisor of the accuracy is reasoned about.
- Timer durations as time: only their order is kept. A callback may overtake an earlier one exactly when its delay is strictly shorter, so same-delay callbacks run in scheduling order.
- The `LOCATIONS` dataset is not part of this model. It is a non-empty sequence parameter, and of each listing only `isGood` and `stopFactorReason` are kept.
- The three localized overlay messages are opaque constants. The fallback failure text is kept verbatim, because it is state that is shown.
- React's `useState` batching and re-rendering: each setter is an immediate field update. Within one handler this gives the same final state, because the handler reads no state it wrote.
- Game.Session.Decide: a press while the cursor is past the last listing is modelled as refused. The code would throw while rendering `currentLocation` (App.tsx:14, 230) before any press, so there is no button to press. The crash itself is not modelled.
- Game.Session.Start: requires a non-playing phase, because `startGame` is only wired to the intro, lost and won screens.
- GuardedGame.GuardedSession: carries no ghost decision counts. Its statistics are tied to the decision count through `totalDecisions` in the invariant, rather than through `Earned`.
- Per-decision monotonicity of the counters is stated by the contract of `Scoring.Apply`, which the `Decide` contracts use, and over whole logs by `Scoring.ReplayMonotone`; it is not a separate clause of `Decide`.
- Game.Session.Decide: the model accepts a press in the instant between the overlay removal and the advance, when both are due at the same moment and the buttons are briefly enabled; a real page hardly ever leaves that window open, and the model keeps it because the callbacks are ordered, not timed.
- The one-listing scenarios (approve a good listing and win; reject a bad listing and win) appear as the statistics lemmas and the guarded invariant, not as concrete traces.

## Findings

| source | as written | input that shows it | evidently intended | confidence | as-written member | corrected member |
|---|---|---|---|---|---|---|
| App.tsx:42-46, 273, 282 | a fatal approval sets no overlay, so the buttons stay enabled until the loss callback runs | one bad listing: approve, then reject before 500 ms; the reject scores 50 and its advance later shows the won screen over the lost one | decisions are refused while the last decision's continuations are pending, so a loss is final | not executed | Traces.SecondPressAfterFatalApproval | GuardedGame.GuardedSession.Decide |
| App.tsx:17-23, 73-75 | `startGame` cancels no timer, and a stale advance increments the new session's cursor | two listings, the first bad: approve, reject, let the loss run, restart, reject; the two pending advances move the cursor to 2 with the phase playing, so `currentLocation` is undefined and rendering the playing screen throws (App.tsx:14, 230) | a restart leaves nothing pending, so the cursor always names a listing | not executed | Traces.StaleAdvanceAfterRestart | GuardedGame.InvConsequences |
| App.tsx:17-23, 73-77, 166 | a stale advance that captured the last listing sets the won phase in a fresh session | one bad listing: approve, reject, let the loss run, restart; the pending advance shows the won screen with 0 decisions, and the accuracy is 0/0 | the won screen is reached only after a decision on every listing | not executed | Traces.WonWithoutDecisions | GuardedGame.InvConsequences |
