# Swipe Beat: gesture classifier, card queue and progress strip

A Dafny model of the logic in the Swipe Beat game's screens. The game deals
arrow cards. The player swipes each card, and the swipe counts as correct
when its direction matches the arrow. The model covers three pieces of logic, split over five modules:

- **Gesture** (`gesture.dfy`). When a drag ends, the card decides whether
  the gesture was a swipe and in which direction. It uses the terminal
  translation and velocity: a strict gate at 100 pixels or 500 pixels per
  second, the dominant axis, then the sign on that axis.
- **Progress** (`progress.dfy`). The progress strip shows a window of at
  most `maxVisible` cards, centred on the current card. Entries are
  numbered by 1-based position in the session. The padding loop is modelled
  as well.
- **CardQueue** (`card_queue.dfy`). This is the simple-mode queue shared by
  the home screen and the play screen. A swipe is two separate events:
  - `Resolve` happens at once. It marks the card under the index and bumps
    exactly one counter.
  - `Advance` is deferred. It sets the index to one past the index captured
    at swipe time. It then either ends the session at 20 cards, or tops the
    queue up with one pending card when fewer than 3 remain.

  The module also holds the strip input (`ProgressCards`), the on-screen
  stack, and the invariants: the queue is stocked and the counters are
  exact.
- **HomeScreen** (`home_screen.dfy`). The home screen's lifecycle: not
  started, started, completed, and restart.
- **PlayScreen** (`play_screen.dfy`). The play screen's completion summary
  for the result screen.

Randomness enters as parameters. Initial directions come from a function
`draw: nat -> Direction`. A refill card's id and direction are arguments of
`Advance`. Wall-clock time, audio and navigation are not modelled.

Behaviour worth noting, as the code has it:
- A tie `|dx| == |dy|` is classified vertically (components/SwipeableCard.tsx:90).
- An empty card list gives an empty strip (components/CardProgressIndicator.tsx:64); see Findings.
- The thresholds and the refill bound are constants (components/SwipeableCard.tsx:23, 86;
  app/index.tsx:107).
- Swipes reach the home screen's session only while it is started and not
  completed, the only time swipeable cards are rendered (app/index.tsx:146-169).

## Model

| member | source | states |
|---|---|---|
| Gesture.Classify | components/SwipeableCard.tsx:73-98 | No swipe exactly when all four of abs(dx), abs(dy) (≤ 100) and abs(vx), abs(vy) (≤ 500) are within their thresholds. A swipe is horizontal exactly when abs(dx) > abs(dy). It is Right iff dx > 0, and Down iff dy > 0 on the vertical axis. |
| Gesture.DistanceThresholdIsStrict | components/SwipeableCard.tsx:86 | abs(dx) = 100 with everything else under threshold is no swipe; 101 is a swipe Right or Left by sign. |
| Gesture.VelocityThresholdIsStrict | components/SwipeableCard.tsx:86 | A velocity of exactly 500 does not trigger; 501 does. |
| Gesture.TieGoesVertical | components/SwipeableCard.tsx:90-96 | When abs(dx) = abs(dy) a swipe is Down or Up, by the sign of dy. |
| Gesture.VelocityOnlyGates | components/SwipeableCard.tsx:86-96 | Two swipes with the same translation get the same direction, whatever their velocities. |
| Gesture.FlickWithoutTranslationIsUp | components/SwipeableCard.tsx:93-96 | A fast flick with zero translation is reported as Up. |
| Progress.StartIndex | components/CardProgressIndicator.tsx:46-52 | The start is ≥ 0 and the window fits: start + min(total, maxVisible) ≤ total. When the centred start current − ⌊maxVisible/2⌋ is ≥ 0 and leaves room for a full window, it is used as is. With no more cards than the width, the start is 0. In every case the start is exactly max(0, min(current − ⌊maxVisible/2⌋, total − maxVisible)). |
| Progress.Pad | components/CardProgressIndicator.tsx:64-72 | The padding loop keeps the existing entries as a prefix. It reaches exactly maxVisible entries when enabled and short, and otherwise changes nothing. Every added entry is a hidden placeholder numbered −1. |
| Progress.VisibleCards | components/CardProgressIndicator.tsx:45-75 | The strip has min(total, maxVisible) entries. Entry i is card start+i with its id and status unchanged, displayIndex start+i+1, and visible. So no placeholder is ever returned. |
| Progress.NoPlaceholderEverShown | components/CardProgressIndicator.tsx:64-72 | No entry of the strip has placeholder status. |
| Progress.CurrentIsShown | components/CardProgressIndicator.tsx:47-55 | For 0 ≤ current < total and maxVisible ≥ 1, the current position lies inside the window. |
| Progress.EmptySessionShowsNothing | components/CardProgressIndicator.tsx:57-64 | As written, an empty session with width 6 yields an empty strip. The padded version yields 6 entries. |
| Progress.PaddedVisibleCards | components/CardProgressIndicator.tsx:57-72 | Corrected strip: always exactly maxVisible entries. The first min(total, maxVisible) are the strip as written, and the rest are hidden placeholders. |
| CardQueue.GenerateCards | app/index.tsx:27-34 | count pending cards, card i with id i and the i-th drawn direction. |
| CardQueue.Fresh | app/index.tsx:39-46 | A session starts with 10 pending cards, index 0 and both counters 0. |
| CardQueue.FreshIsStockedAndTallied | app/index.tsx:39-46 | The starting board satisfies both queue invariants. |
| CardQueue.Resolve | app/index.tsx:70-91 | Length, index and every other card are unchanged. The card under the index keeps id and target, and becomes Correct iff its target equals the swipe direction, else Incorrect. Exactly one counter rises by 1: success iff correct. Without a card under the index nothing changes. app/play.tsx:98-119 is identical. |
| CardQueue.RepeatSwipeCountsTwice | app/index.tsx:72-87 | The prior status is not checked. A second swipe before the advance overwrites the status by the second direction, and the counters go up twice for one card. |
| CardQueue.Advance | app/index.tsx:94-117 | The index becomes captured + 1 and the counters are unchanged. The old cards stay a prefix. Exactly one card is appended iff the session does not end (captured + 1 < 20), fewer than 3 cards remain from the new index, and fewer than 20 exist. The appended card is pending with the drawn id and direction. |
| CardQueue.StaleAdvanceIsNoOp | app/index.tsx:94-117 | The second timeout of a doubled swipe writes the same index and appends nothing on a stocked queue. |
| CardQueue.AdvanceKeepsStocked | app/index.tsx:106-117 | A current or one-behind advance keeps the queue stocked. |
| CardQueue.CardUnderIndex | app/index.tsx:169 | While the session runs on a stocked queue, a card lies under the index. It is the first card of the on-screen stack. |
| CardQueue.RoundPreserves | app/index.tsx:67-119 | A swipe plus its advance keeps two invariants. Stocked: at most 20 cards, and at least 3 ahead or all 20 dealt. Tallied: exactly the cards before the index are resolved, and the counters equal the status counts. The index and the counter sum each rise by one. |
| CardQueue.RunPreserves | app/index.tsx:67-119 | Any alternating run within the session keeps both invariants, and the index advances by the run's length. |
| CardQueue.ProgressCards | app/index.tsx:122-125 | The strip input has the same length as the cards, with the same ids. An entry is Current exactly at the index and carries the stored status elsewhere. app/play.tsx:173-180 is identical. |
| CardQueue.StripMarksCurrent | app/index.tsx:122-143 | In the width-6 strip rendered from the strip input, an entry shows Current exactly at the absolute position of the index. Every other entry shows its card's stored status and id. |
| CardQueue.Stack | app/play.tsx:190-191 | The presented stack is cards[index .. min(length, index+3)), empty past the end. app/index.tsx:169 is identical. |
| HomeScreen.Restart | app/index.tsx:56-65 | 10 pending cards with drawn directions and ids 0..9. Index 0, not started, not completed, counters 0. Both queue invariants hold. |
| HomeScreen.StartGame | app/index.tsx:48-54 | Marks started and zeroes both counters. Cards, index and the completed flag are unchanged. |
| HomeScreen.Advance | app/index.tsx:94-103 | The queue advances as in CardQueue.Advance. The session becomes completed iff captured + 1 ≥ 20, and that path appends no card. |
| HomeScreen.RunKeepsConsistent | app/index.tsx:94-117 | Alternating swipes on a started session within its twenty cards keep both invariants, and completed holds exactly when the index is 20. |
| HomeScreen.PlayedSession | app/index.tsx:36-119 | From a started restart, any run of up to 20 swipes has these properties. The queue never exceeds 20 cards. A card lies under the index until completion. The counters sum to the number of swipes. The session completes exactly at the twentieth swipe. |
| PlayScreen.Advance | app/play.tsx:122-166 | The queue advances as in CardQueue.Advance. The session finishes iff captured + 1 ≥ 20. The summary states 20 total cards and the counters the handler captured at swipe time. |
| PlayScreen.FinalSummaryOmitsLastSwipe | app/play.tsx:143-144 | On the final swipe the resolved counters sum to 20, but the summary's sum to 19. |
| PlayScreen.FullSessionReportsNineteen | app/play.tsx:94-170 | From a fresh board, 19 swipes and then the last one finish with a summary whose counts sum to 19. |
| PlayScreen.AdvanceReportingLatest | app/play.tsx:139-147 | Corrected advance: the same board and finishing condition, but the summary carries the counters current when the advance runs. |
| PlayScreen.LatestSummaryCountsEverySwipe | app/play.tsx:139-147 | With the corrected advance, the summary of a complete session has success + failed = totalCards. Each figure equals the number of cards with that status. |

## Findings

| source | as written | input that shows it | evidently intended | confidence | as-written member | corrected member |
|---|---|---|---|---|---|---|
| app/play.tsx:143-144 | The summary reports the counters the swipe handler closed over, which predate the final swipe's own increment. | Twenty swipes from a fresh session: the counters reach 20, but the summary reports 19 with totalCards 20. | The summary counts every swipe, including the last. | high (not executed) | PlayScreen.Advance (shown by PlayScreen.FullSessionReportsNineteen) | PlayScreen.AdvanceReportingLatest (proved by PlayScreen.LatestSummaryCountsEverySwipe) |
| components/CardProgressIndicator.tsx:64 | The padding loop runs only when totalCards ≥ maxVisible. By then the slice already holds maxVisible entries, so padding never happens. | No cards with maxVisible 6 gives an empty strip. | Pad short strips with hidden placeholders up to maxVisible, as the comment at line 57 says. | medium (not executed) | Progress.VisibleCards (shown by Progress.EmptySessionShowsNothing) | Progress.PaddedVisibleCards |

## Left out

- The rhythm engine (beatmap, phases, beat-match timing window and score) is not in the modelled files, so it is not modelled.
- The drag feedback in `onUpdate` is left out. It covers scale, opacity and position interpolation with a square root on floats, and all values are presentation only. `Classify` takes only the terminal sample, so no per-frame value can affect the verdict. This holds by the signature and is not stated as a lemma.
- Exit and return animations (`withTiming` targets, rotation) and the strip's pulse animation are presentation only.
- Gesture.Classify does not model JavaScript NaN or infinite values: translations and velocities are reals.
- Card colours are cosmetic. Ids are reals, as JavaScript numbers. The placeholder id string `placeholder-<n>` is modelled as `PlaceholderSlot(n)`.
- Progress.VisibleCards: maxVisible is a natural number, so negative or fractional widths are not modelled. Neither is JavaScript's negative-end `slice` behaviour that such widths would reach. Both screens pass 6.
- Randomness (`Math.random` directions, `Date.now() + Math.random()` ids) enters as parameters.
- Start and end times, durations, `toFixed` formatting and accuracy percentages are left out. They are floats and formatting.
- Audio play, pause and seek, and navigation to the result screen, are left out. The summary handed to navigation is modelled.
- app/result.tsx, which parses the navigation parameters and computes a percentage, is not part of this model.
- React scheduling is reduced to discrete resolve and advance events. The 300 ms delay, state batching and the double invocation of state updaters in development mode are left out. So is a restart issued while an advance is still pending.
