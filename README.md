# CyberSum core, modelled in Dafny

CyberSum is a browser puzzle. The player turns two reels of twelve numbers
each and looks for one number on each reel that together make the target sum.
Finding it wins the round and moves the game up one level. Every level fills
each reel with one solution and eleven distractors. The level only moves the
ranges: the target is drawn from [10 + 2L, 25 + 4L) at level L, and the
distractors from [0, target + 15 + 5L), so a higher level can still draw a smaller
target than the one before.

This project models the two components that hold the game's logic.

- `AppComponent` (`src/app.component.ts`) generates the challenge. It draws
  the target, picks two solutions, builds two sets of twelve distinct numbers
  and shuffles them. It also runs the session state machine: menu and playing
  screens, the `idle | checking | result` evaluation state, the level, the two
  reel selections, the winner flag and the status messages. Its delayed
  callbacks are modelled too: the 800 ms check and the 2500 ms and 4500 ms
  steps of the win sequence.
- `ReelComponent` (`src/components/reel.component.ts`) is one reel. It lays
  the range out on a drum of twelve 30-degree segments. It turns pointer
  drags into a rotation and snaps that rotation to a segment when the pointer
  is released. 150 ms later it emits the value of the segment facing the
  player. It also computes each segment's angle from the front and its
  brightness.

Files:

- `wrappers.dfy`: `Option`, and removing one callback from a list of pending ones.
- `js_math.dfy` (module `JsMath`): these JavaScript number operations are
  written out exactly:
  - `Math.abs`;
  - `Math.round`, whose ties go towards +infinity;
  - truncation towards zero;
  - `% 360` on reals and `% 12` on integers, whose remainder takes the
    dividend's sign.
- `challenge.dfy` (module `Challenge`) covers challenge generation:
  - pure definitions (`Generate`, `Fill`, `Shuffle`);
  - the `genSet` loop as the method `GenSet`, and the method `MakeChallenge`;
  - the proof that every generated challenge is well formed and solvable.
- `session.dfy` (module `Session`): the class `GameSession`, whose methods
  update its fields. This file also has the level-label formatting and its
  round trip.
- `reel.dfy` (module `Reel`): the pure helpers of the reel, and the class
  `ReelController` with the drag, snap and settle methods.

Modelling choices:

- **Randomness.** The `Math.random()` calls of `generateChallenge` (the
  target, the solution and the distractor draws) are inputs in [0, 1), held in
  the datatype `ChallengeDraws`. The randomised comparator sort behind
  `shuffle` is a list of choices (`order1`, `order2`) fixing which permutation
  comes out. The random draws of the LED timer and the particles are left out.
- **Timers.** A pending `setTimeout` callback is an entry in a field:
  `GameSession.timers` or `ReelController.pending`. A `Fire...` method runs
  one entry. Any pending entry may be chosen, so every order in which the
  browser might run them is allowed.
- **Pointer position and clock.** The pointer height and `performance.now()`
  are parameters.
- **Numbers.** Rotations and pointer values are exact reals.
- **Draws for the session class.** The `GameSession` methods that regenerate
  (its constructor, `GenerateChallenge`, `StartGame`, `ResetGame`,
  `FireLevelUp`) take the challenge that was generated. They require it to
  be well formed for the level. The drivers `CreateWithDraws`,
  `StartGameWithDraws`, `ResetGameWithDraws` and `LevelUpWithDraws` connect
  them to the draws: each one obtains the challenge from `DrawChallenge`,
  which runs `MakeChallenge` and proves the result well formed with
  `GenerateWellFormed`, and then calls the class method.
- **Rounding.** `Math.round` sends a tie towards +infinity, and the model
  rounds the same way.
- **Levels on start.** `startGame` sets the level to 1
  (`src/app.component.ts:116`), as `resetGame` does.
- **No cancellation.** A reset cancels no pending callback. A check or
  level-up step scheduled before a reset still runs after it, as in the code.

## Model

| member | source | states |
|---|---|---|
| JsMath.Abs | src/components/reel.component.ts:181 | `Math.abs`: the result is non-negative and is `x` or `-x` |
| JsMath.Round | src/components/reel.component.ts:161 | `Math.round`: the result is the integer in (x - 0.5, x + 0.5], so ties go up |
| JsMath.JsRem360 | src/components/reel.component.ts:178 | `a % 360` in JavaScript: the result lies in [0, 360) for a non-negative `a` and in (-360, 0] for a negative one, and it differs from `a` by a whole number of turns |
| JsMath.JsRem12 | src/components/reel.component.ts:164 | `a % 12` in JavaScript: the result lies in [0, 12) for a non-negative `a` and in (-12, 0] for a negative one, and it differs from `a` by a multiple of 12 |
| Challenge.Pick | src/app.component.ts:137-140 | `Math.floor(Math.random() * n)` lies in [0, n) for a positive n |
| Challenge.TargetFor | src/app.component.ts:134-137 | for a level L the target lies in [10 + 2L, 25 + 4L) |
| Challenge.Solutions | src/app.component.ts:140-141 | `sol1 + sol2 == target`; for a target above 2, `sol1` lies in [1, target - 2] and `sol2` in [2, target - 1] |
| Challenge.AddDistinct | src/app.component.ts:144-147 | `Set.add`: the value is present afterwards, the old elements keep their order, nothing else is added, the size grows by one exactly when the value was new, and distinctness is kept |
| Challenge.Fill | src/app.component.ts:143-149 | the distractor loop keeps the seed set as a prefix and never passes twelve elements; a result short of twelve holds the value of every draw, so the loop stopped only because the draws ran out |
| Challenge.GenSet | src/app.component.ts:143-149 | the `while` loop of `genSet` computes exactly `Fill([sol], range, draws)` |
| Challenge.Shuffle | src/app.component.ts:162-164 | the shuffled array is a permutation of the input: same length, same multiset |
| Challenge.ShufflePreservesDistinct | src/app.component.ts:162-164 | shuffling a set of distinct numbers leaves them distinct |
| Challenge.ShuffleKeepsValues | src/app.component.ts:162-164 | shuffling keeps every value in [0, range) and keeps a given value present |
| Challenge.FillKeepsSet | src/app.component.ts:143-149 | the distractor loop keeps a set of distinct values distinct, and keeps every value in [0, range) |
| Challenge.SetProperties | src/app.component.ts:143-150 | a finished `genSet` result has twelve distinct numbers in [0, target + 15 + 5L), and the seeding solution is among them |
| Challenge.MakeChallenge | src/app.component.ts:133-153 | the computation of `generateChallenge` equals the pure `Generate` for the same level and draws |
| Challenge.GenerateWellFormed | src/app.component.ts:133-153 | for every level from 1 up, a generated challenge has its target in range and two sets of twelve distinct in-range numbers, and one number from each set adds up to the target |
| Challenge.AssembleWellFormed | src/app.component.ts:143-153 | two positive solutions adding up to an in-range target give a well-formed, solvable challenge |
| Session.Decimal | src/app.component.ts:199 | a level printed in a template literal is a non-empty string of decimal digits without a leading zero; it is one digit exactly when the level is below 10 |
| Session.DecimalRoundTrip | src/app.component.ts:199 | reading the printed digits back gives the number |
| Session.LevelLabel | src/app.component.ts:199 | the level label is all digits and at least two long; below 10 it is `'0'` and one digit, from 10 up it is the plain number |
| Session.LevelLabelRoundTrip | src/app.component.ts:199 | the padded label reads back as the level, and it is exactly two digits for levels below 100 |
| Session.SectorMessage | src/app.component.ts:199 | the sector message is `ACCESSING SECTOR: DATA_CORE_` followed by digits that read back as the coming level; below 10 they are `0` and the level's one digit |
| Session.GameSession.constructor | src/app.component.ts:36-56 | a new session is on the menu at level 1, with the first challenge on the reels, both selections null, the state `idle`, the scanning message shown, and the session invariant holding |
| Session.GameSession.GenerateChallenge | src/app.component.ts:133-160 | the new challenge goes on the reels; both selections become null, the winner flag goes down, the state becomes `idle`, and the scanning message is shown; the session invariant holds afterwards |
| Session.GameSession.StartGame | src/app.component.ts:115-120 | the level becomes 1, a new level-1 challenge is shown, the view becomes `playing`, and the reels and state are cleared as by `generateChallenge` |
| Session.GameSession.ResetGame | src/app.component.ts:122-126 | the level becomes 1 with a new challenge; the reboot message replaces the scanning message; the view is unchanged |
| Session.GameSession.ReturnToMenu | src/app.component.ts:128-131 | only the view changes; it becomes `menu` |
| Session.GameSession.OnReelChange | src/app.component.ts:166-190 | nothing changes once the round is won. Otherwise reel index 1 sets the first selection and any other index sets the second. With both set, the state is `checking` and a check is scheduled with both values, their sum and the current target. With one still null, the state is `idle` |
| Session.GameSession.FireCheck | src/app.component.ts:176-186 | the check compares the sum and target captured when it was scheduled. A match starts the win sequence and schedules its two steps. A mismatch sets the state to `result`. The fired callback leaves the pending list |
| Session.GameSession.ExecuteWinSequence | src/app.component.ts:192-206 | the winner flag goes up, the sync message is shown, and the 2500 ms and 4500 ms steps are scheduled; nothing else changes |
| Session.GameSession.FireWinMessage | src/app.component.ts:197-200 | the win message announces the next level, zero-padded to two digits below 10; nothing else changes |
| Session.GameSession.FireLevelUp | src/app.component.ts:202-205 | the level rises by exactly one, a challenge for the new level is shown, and the reels, winner flag, state and message are reset as by `generateChallenge` |
| Session.DrawChallenge | src/app.component.ts:133-153 | the draws for a level from 1 up produce the challenge `Generate` gives, and it is well formed for that level |
| Session.CreateWithDraws | src/app.component.ts:53-56 | constructing the component shows the challenge that the level-1 draws generate, on the menu at level 1, `idle`, with both reels unset, no winner, the scanning message, no win message and no pending timers |
| Session.StartGameWithDraws | src/app.component.ts:115-118 | `startGame` shows the challenge that the level-1 draws generate, at level 1, on the playing screen, `idle` with both reels unset, no winner and the scanning message; the win message and pending timers are kept |
| Session.ResetGameWithDraws | src/app.component.ts:122-125 | `resetGame` shows the challenge that the level-1 draws generate, at level 1, `idle` with both reels unset, no winner and the reboot message; the screen, the win message and pending timers are kept |
| Session.LevelUpWithDraws | src/app.component.ts:202-205 | the 4500 ms step moves up exactly one level and shows the challenge that the next level's draws generate, `idle` with both reels unset, no winner and the scanning message; only the fired timer is removed, and the screen and win message are kept |
| Reel.DisplayNumbers | src/components/reel.component.ts:106-110 | there are always twelve labels. An empty range shows `'0'` on every segment. A non-empty range shows only its own numbers: it is laid out from segment 0 and repeats with period equal to its length |
| Reel.CycleIndexIsRemainder | src/components/reel.component.ts:109 | the index of the range shown on segment `i` is `i % range.length` |
| Reel.DragRotation | src/components/reel.component.ts:134-136 | the rotation moves 0.42 degrees per unit of pointer travel since the drag began. It rises exactly when the pointer is above the start height, and it is the start rotation again when the pointer is back at the start height |
| Reel.SnapAngle | src/components/reel.component.ts:160-161 | the snapped rotation is a whole number of 30-degree segments and lies within 15 degrees of the rotation; a rotation exactly halfway between two segments snaps to the larger angle, as `Math.round` does |
| Reel.SnapIsNearest | src/components/reel.component.ts:160-161 | no multiple of 30 degrees is closer to the rotation than the snapped one |
| Reel.SnapIdempotent | src/components/reel.component.ts:160-161 | snapping an already-snapped rotation changes nothing |
| Reel.SelectedIndex | src/components/reel.component.ts:164 | the selected index lies in [0, 12), negative rotations included, and is the Euclidean residue of `round(-snapped / 30)` modulo 12 |
| Reel.Emission | src/components/reel.component.ts:166-172 | the settle callback emits nothing for an empty range and otherwise a number of the range, `range[index]` whenever the index is inside it |
| Reel.EmissionMatchesDisplay | src/components/reel.component.ts:106-110 | the value emitted for a segment is the number displayed on that segment |
| Reel.AngularDist | src/components/reel.component.ts:175-182 | the angular distance lies in [0, 180] and takes the segment's angle to a whole number of turns |
| Reel.AngularDistMinimal | src/components/reel.component.ts:175-182 | the angular distance is the shortest way from the segment's angle to a whole number of turns |
| Reel.SelectedSegmentCentred | src/components/reel.component.ts:164-181 | after a snap, the selected segment faces the player dead-centre: its angular distance is 0 |
| Reel.OtherSegmentsAway | src/components/reel.component.ts:164-181 | after a snap, every other segment is at least 30 degrees from the front |
| Reel.Opacity | src/components/reel.component.ts:184-188 | the opacity lies in [0, 1]; it is 1 exactly below 15 degrees and 0 from 95 degrees |
| Reel.OpacityNonIncreasing | src/components/reel.component.ts:184-188 | a segment farther from the front is never brighter |
| Reel.OnlySelectedLit | src/components/reel.component.ts:175-188 | after a snap, the selected segment is the only one closer than 15 degrees to the front, so it is the only one fully bright |
| Reel.SettledValueIsShown | src/components/reel.component.ts:164-170 | after a snap on a non-empty range, the segment the callback emits for is at the front and fully lit, and the value emitted is the number it shows |
| Reel.ReelController.constructor | src/components/reel.component.ts:86-104 | a new reel has an empty range, is not winning or dragging, and sits at rotation 0 with speed 0 |
| Reel.ReelController.SetRange | src/components/reel.component.ts:86 | the `range` input takes its new value; the reel invariant holds |
| Reel.ReelController.SetWinning | src/components/reel.component.ts:87 | the `isWinning` input takes its new value; the reel invariant holds |
| Reel.ReelController.OnDragStart | src/components/reel.component.ts:112-120 | a winning reel ignores the press. Otherwise a drag starts at this height and time, from the current rotation |
| Reel.ReelController.OnMove | src/components/reel.component.ts:122-140 | a move without a drag changes nothing. Otherwise the speed becomes `|dy / dt|` when time has passed and is kept when it has not, so it is never negative. The rotation follows the travel since the drag began, and the last height and time are recorded |
| Reel.ReelController.OnEnd | src/components/reel.component.ts:142-151 | a release without a drag changes nothing. Otherwise the drag ends, the speed becomes 0, the drum snaps, and a settle callback for the facing segment is scheduled |
| Reel.ReelController.SnapToNearest | src/components/reel.component.ts:159-173 | the rotation becomes the snapped angle, and a settle callback for the selected index is scheduled |
| Reel.ReelController.FireSettle | src/components/reel.component.ts:166-172 | the callback reads the range as it is when it runs, emits its value for the stored index (nothing for an empty range), and leaves the pending list |
| Reel.DragGesture | src/components/reel.component.ts:112-162 | a whole press, move and release gesture leaves the drum on the segment nearest the rotation the last pointer height gives. A gesture released at the height where it began leaves the drum where it was. Exactly one settle callback is added, carrying the index of the segment the drum ends on; the speed is zero and the range and winning flag are unchanged |

## Left out

- The audio service and every call into it: Web Audio plumbing that the game's state does not depend on.
- Fullscreen handling, the LED glitch timer and the particle generation: browser shims and decoration.
- `getFilter`, the templates, the styles and the glass-reflection transform: presentation only.
- Window listener registration and removal, and reading `clientY` from mouse or touch events. A drag is modelled as start, move and end calls; start and move carry a height and a clock reading, and end carries nothing. A second press during a drag registers extra listeners in the code; they act on the same fields, so they are not modelled separately. The extra move listener runs after the first one with no height change, so when the clock has moved it sets the speed to 0; a second `OnMove` call at the same height gives exactly that state. The end listener of the second press returns early without detaching, so one extra pair of listeners stays registered; only the blur of `getFilter` reads the speed.
- The AI service: it is not used by the logic modelled here.
- Floating-point rounding: rotations and pointer values are exact reals, so `0.42` and the divisions are exact.
- The distribution of `Math.random` and the bias of the comparator sort. Only the range of each draw and the permutation property are modelled.
- Challenge.Fill: each distractor loop reads a finite list of draws, whereas the code loops until twelve values are held. When a list runs out first, `Generate` returns `None`, and the session drivers require a supply long enough to finish.
- Session.GameSession.GenerateChallenge, Session.GameSession.StartGame, Session.GameSession.ResetGame and Session.GameSession.FireLevelUp take the challenge that was generated instead of drawing it. Their link to the draws is stated by `CreateWithDraws`, `StartGameWithDraws`, `ResetGameWithDraws` and `LevelUpWithDraws`.
- Session.GameSession.FireCheck: the `async` pause of `onReelChange` is a pending check. The state set before the pause is the method's end state, and the code after the pause is `FireCheck`.
- Timer delays: only which callbacks are pending is modelled, not the 150, 800, 2500 and 4500 ms durations. Any pending callback may run next, so the model allows more orders than the real delays do.
