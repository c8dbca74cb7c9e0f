# Arrow-and-heart arcade game: the simulation core

This project models the simulation half of `main.js`, a small browser arcade
game. The player (the "boy") moves around a canvas and shoots arrows to the
right. An evading target (the "girl") darts around the right-hand part of the
screen. Each arrow that hits the target's face scores one hit and spawns a heart
"pop". After `maxHits` (3) hits the game enters an ending cinematic. In it, two
standing sprites slide together until their hands meet. A big heart then grows,
and after five seconds of heart the frame loop stops and a video takes over.

The model follows the source's structure:

- `Numeric`: `clamp`, `randInt`, `randRange`, and the first-order smoother
  `p += (goal - p) * k` that the target and the ending both use.
- `Entities`: the records of the game state as values. It also has `Draws`,
  the random draws one tick consumes. These stand in for `Math.random`,
  `Math.cos` and `Math.sin`.
- `Seqs`: `Array.prototype.filter`, which prunes arrows and pops.
- `Input`: `pressedOnce` as a pure poll (`PressStep`), and the fire edge
  `pressedOnce(' ') || pressedOnce('space')`.
- `Collision`: `faceHit`, the strict overlap test with the face sub-rectangle.
- `Movement`: the player's movement and the target's evasion controller.
- `Arrows`: the per-arrow step of the projectile loop, how many hits a pass
  credits, and pruning.
- `Effects`: pops, and the scale and alpha formulas the renderer derives from
  the pop and heart timers.
- `Cinematic`: the `end` record. `EndState` and `EndStep` specify it. The class
  `EndRecord` updates it in place, as `winSequence` and `renderEnding` do.
- `Game`: the `state` object as the class `GameState`. Its methods mirror
  `pressedOnce`, `shoot`, `popHeart`, `winSequence`, `update` (split into the
  source's sections, with the arrow loop and the pop loop as real loops) and
  the frame driver `loop`. Each method is proved against the pure
  specification functions above.

Positions and times are `real`; IEEE-754 rounding is not modelled. Random
values are parameters: `Draws(ux, uy, rDist, rTimer)` with `ux² + uy² = 1`
(the cosine and sine of the drawn angle) and `rDist`, `rTimer` in `[0, 1)`.

Arrows fly horizontally, so the rows a shot can reach are fixed when it
leaves the bow. In particular, an arrow shot from the player's start position
(24, 110) never meets the face of the target at its start position (250, 60),
whatever its x: the arrow spans rows 136 to 184 and the face rows 69.6 to
95.2. `Arrows.FaceRowBand` gives the exact band of shooter rows from which an
arrow can meet the face.

## Model

| member | source | states |
|---|---|---|
| Numeric.Clamp | main.js:441 | the result is never below the lower bound; it stays in [a, b] when the band is non-empty; it is x itself when x lies in the band; the lower bound wins when the band is empty |
| Numeric.RandInt | main.js:442 | for a draw in [0, 1), the result is an integer in [a, b] whenever a <= b |
| Numeric.RandRange | main.js:443 | for a draw in [0, 1), the result lies in [a, b), or equals a when a == b |
| Numeric.Ease | main.js:151-152 | the distance to the goal is multiplied by exactly (1 - k), with sign kept, and the new value lies between the old one and the goal |
| Seqs.Filter | main.js:128 | the result is no longer than the input, and every element it returns satisfies the predicate and comes from the input |
| Seqs.FilterKeepsEverySurvivor | main.js:128 | every input element that satisfies the predicate is in the result |
| Seqs.FilterAppend | main.js:128 | filtering a concatenation is the concatenation of the filtered parts, so survivors keep their relative order |
| Seqs.FilterAllKept | main.js:160 | a list whose elements all survive comes back unchanged |
| Input.PressStep | main.js:65-69 | pressedOnce fires exactly when the key is down and not latched; afterwards the latch equals the key's state; no other key's latch changes |
| Input.HeldKeyFiresOnce | main.js:65-69 | while a key stays down, the second poll and every later one returns false |
| Input.ReleaseRearms | main.js:65-69 | a poll that sees the key up returns false and clears the latch, so the next poll with the key down fires again |
| Input.FireEdge | main.js:105 | the fire edge happens exactly when ' ' or 'space' is down and unlatched; the ' ' latch then follows its key; the 'space' latch keeps its old value when ' ' fired (it was not polled) and follows its key otherwise; no other key's latch changes |
| Input.BothFireKeysFireTwice | main.js:105 | the short circuit skips the 'space' poll, so a tick that sees both keys go down is followed by a second shot on the next tick, and no third |
| Collision.FaceRect | main.js:389-397 | for a sprite of positive size, the face rectangle lies strictly inside the sprite |
| Collision.FaceHit | main.js:387-413 | faceHit is the strict four-sided overlap with the face rectangle; a face hit is also an overlap with the whole sprite |
| Collision.FaceHitIsCommonPoint | main.js:387-413 | for rectangles of positive size, faceHit holds exactly when some point lies inside both the arrow and the face |
| Collision.TouchingIsNoHit | main.js:409-412 | an arrow whose right edge lies exactly on the face's left edge does not hit |
| Movement.MovePlayer | main.js:95-102 | the player stays within [0, width - w] x [0, height - h - 4] when those bands are non-empty; a move that stays inside is applied exactly as speed x dt per held axis; the size is unchanged |
| Movement.StepTarget | main.js:130-156 | the target stays in its area, x >= 0.4 width and y >= 20, and below the right and bottom margins when those exist; if the timer has not expired, the goal is kept and the timer counts down by dt; on retarget, the goal lies in the player-relative band and y in [20, 120], and the timer is rearmed in [0.3, 0.7) |
| Movement.TargetClosesOnGoal | main.js:138-156 | on every tick, retarget or not, a target whose position and new goal lie inside its area ends at 15% of its former distance from that goal on each axis |
| Arrows.NewArrow | main.js:163-177 | a shot arrow starts at the player's position + (60, 26), is 96x48, flies at (400, 0) and is not hit |
| Arrows.FaceRowBand | main.js:165-173 | a shot arrow meets the face of a 64-tall target exactly when the shooter's row lies in (g.y - 64.4, g.y + 9.2) and the arrow is level with the face; never from the two starting positions |
| Arrows.Credited | main.js:113 | an arrow is credited exactly when its step sets the hit flag fresh, leaving 0.1 - dt of grace; otherwise its step keeps the flag |
| Arrows.StepArrow | main.js:108-125 | the arrow advances by velocity x dt; it becomes hit exactly when it was not hit and its advanced box overlaps the face; a fresh hit leaves 0.1 - dt of grace; a hit arrow's timer counts down; an unhit arrow's timer is unchanged |
| Arrows.StepAll | main.js:108-125 | the loop keeps the length and steps every arrow independently, in place |
| Arrows.HitIsSticky | main.js:113-124 | a tick never clears a hit flag |
| Arrows.HitArrowIgnoresTarget | main.js:113 | an arrow that is already hit takes the same step wherever the target is |
| Arrows.CreditsBefore | main.js:113-118 | the hits credited over a prefix never exceed the arrows in it that were not hit yet |
| Arrows.CreditsAreFlips | main.js:113-119 | the hits a pass credits are exactly the arrows whose flag flips from clear to set |
| Arrows.NoSecondCredit | main.js:113-115 | an arrow credited in one tick cannot be credited in any later tick |
| Arrows.Prune | main.js:128 | the pruned list keeps exactly the arrows that are on screen (x < width + 220) and, if hit, still have grace time; nothing else is added |
| Arrows.PruneKeepsLiveArrows | main.js:128 | a list whose arrows all survive comes back from pruning unchanged |
| Arrows.FreshHitIsShown | main.js:115-128 | a fresh hit survives pruning for its own tick when dt < 0.1 and it is still on screen |
| Effects.CenterPop | main.js:179-181 | a new pop is age 0 and its 32x32 glyph is centred on the playfield |
| Effects.Burst | main.js:116 | n credited hits push n identical centre pops |
| Effects.BurstAppend | main.js:116 | the pops of m hits followed by those of n hits are the pops of m + n hits |
| Effects.BurstExtends | main.js:116 | pushing the pops of m hits and then those of n hits onto a list pushes the pops of m + n hits |
| Effects.Aged | main.js:159 | every pop ages by dt and keeps its position; the length is unchanged |
| Effects.PrunePops | main.js:160 | exactly the pops younger than 0.9 s are kept |
| Effects.PopScale | main.js:201 | a live pop is drawn at a scale in [1, 1.72) |
| Effects.PopAlpha | main.js:201 | a live pop's opacity lies in (0, 1] and is 1 when it is new |
| Effects.PopFades | main.js:201 | older pops are larger and more transparent |
| Effects.PopHalfway | main.js:201 | at 0.5 s a pop has scale 1.4 and alpha 4/9 and is kept; at 0.95 s it is removed |
| Effects.HeartScale | main.js:280 | the heart's scale is at most 3.5, at least 0.5, and exactly 3.5 from 1.5 s on |
| Effects.HeartAlpha | main.js:282 | the heart's opacity lies in [0, 1] and is exactly 1 from 0.5 s on |
| Effects.HeartGrows | main.js:280-282 | scale and opacity never decrease as the heart timer grows |
| Cinematic.InitialEnding | main.js:242-248 | after winSequence, t = heartT = 0, the sub-phase is slide, the text is shown and the right hand is 96 units right of the left hand |
| Cinematic.EndStep | main.js:250-278 | t advances by dt; both sprites close 8% of their distance to their targets; the sub-phase is heart exactly when it was heart already or the hands are closer than 15; heartT grows by dt only in heart |
| Cinematic.Handoff | main.js:297-304 | the hand-off test (heartT > 5) sits inside the fade test (heartT > 2), so a hand-off always happens while fading |
| Cinematic.HeartIsFinal | main.js:271-274 | once the heart sub-phase is reached it is never left |
| Cinematic.SlideOffset | main.js:256-259 | the hands' offset from their resting separation after n ticks is positive |
| Cinematic.SlideOffsetShrinks | main.js:258-259 | the offset never grows from one tick to a later one |
| Cinematic.SlideOffsetCrossing | main.js:271-273 | the hands are closer than 15 exactly from the 19th tick on |
| Cinematic.EndRunOffset | main.js:256-266 | the offset after n ticks depends neither on the width nor on the frame times |
| Cinematic.HeartFromNineteenthTick | main.js:271-278 | from winSequence, for every width and every sequence of frame times, the heart sub-phase begins exactly at the 19th tick; heartT is then the time elapsed from that tick on, and t is the total time |
| Cinematic.EndRecord.constructor | main.js:241 | the initial end record |
| Cinematic.EndRecord.Reset | main.js:245-247 | the record becomes InitialEnding(width), whatever it held |
| Cinematic.EndRecord.Step | main.js:250-307 | the in-place update equals EndStep of the old record, and reports the hand-off exactly when heartT > 5 |
| Game.FrameDt | main.js:84 | the frame step is at most 1/30 s; it is the elapsed time in seconds when that is smaller; it is non-negative for a non-decreasing clock |
| Game.GameState.constructor | main.js:19-31 | the initial state: start phase, no hits, arrows or pops, player at (24, 110), target at (250, 60), 64x64 sprites |
| Game.GameState.PressedOnce | main.js:65-69 | the result and the new latch map are those of PressStep |
| Game.GameState.Shoot | main.js:163-177 | exactly one arrow, NewArrow, is appended; the others are kept |
| Game.GameState.PopHeart | main.js:179-181 | exactly one centre pop is appended |
| Game.GameState.WinSequence | main.js:242-248 | the phase becomes ending and the end record becomes InitialEnding(width) |
| Game.GameState.MoveBoy | main.js:95-102 | the in-place movement equals MovePlayer |
| Game.GameState.ShootOnEdge | main.js:105 | the latch and the arrows are those of FireEdge, with one NewArrow appended on an edge |
| Game.GameState.Score | main.js:116-118 | one pop and one hit are added, and the ending starts once hits reach maxHits |
| Game.GameState.VisitArrow | main.js:109-124 | arrow i is replaced by its StepArrow; a credit adds one hit and one pop and may start the ending |
| Game.GameState.AdvanceArrows | main.js:108-125 | the in-place loop leaves StepAll of the arrows, adds Credits hits and as many pops, and starts the ending exactly when hits reach maxHits |
| Game.GameState.AgePops | main.js:159 | the in-place loop leaves Aged of the pops |
| Game.GameState.Shooting | main.js:95-128 | the player moves by MovePlayer, the latch and shot follow FireEdge, the arrows become Prune of StepAll, and the credits add as many hits and centre pops, starting the ending at maxHits |
| Game.GameState.Tick | main.js:95-160 | the play tick's new state is the composition of MovePlayer, FireEdge, StepAll with credits, Prune, StepTarget (from the moved player), Aged and PrunePops; the end record is reset exactly when the hits reach maxHits |
| Game.GameState.Update | main.js:92-161 | outside play nothing changes; in play the state and the end record are those of Tick and everything lies on screen: player and target in their areas, every arrow surviving, every pop alive; hits never decrease and reaching maxHits means the ending |
| Game.GameState.Frame | main.js:82-88 | a stopped loop changes nothing; otherwise dt = FrameDt(ts, last), last = t = ts and the keys are untouched; in play the game state is that of Tick and on screen; outside play the player, target, arrows, pops, hits, latches and phase are unchanged; in the ending the end record takes one EndStep, including in the frame that started it, and is untouched otherwise; the loop stops exactly on the hand-off |
| Game.GameState.Render | main.js:216-218 | in the ending one EndStep is applied to the end record and the loop stops exactly on the hand-off; otherwise nothing changes |

## Left out

- Drawing: `render`, `drawSprite`, `drawHeartsHUD`, `pixelHeart`, `drawShakyString`, the HUD and the text. Only the state `renderEnding` changes is modelled. The pop and heart scale and alpha formulas are modelled as functions.
- Asset loading (`loadImage`, `preload`) and the start-screen thread image (`startThreadImage`, `startThreadImageClickable`): DOM and canvas I/O.
- The key listeners: `keys` is a field that the environment writes between frames.
- The start-button handler: it is DOM wiring that sets phase to play and starts the loop. The constructor gives the initial state.
- `requestAnimationFrame` scheduling: `Frame` is one call of `loop` with its timestamp as a parameter.
- `Math.random`, `Math.cos` and `Math.sin`: replaced by the `Draws` parameter, constrained to a unit direction and draws in [0, 1).
- The `|| 0` guard in `loop` that turns a NaN step into 0: there is no NaN in `real`.
- IEEE-754 rounding and the `x|0` truncation in `drawSprite`: positions are exact reals.
- The hand-off's DOM effects (hiding the canvas, showing and playing the video): only `running := false` is modelled. The fade overlay after 2 s is drawing only and is named by `Cinematic.Fading`.
- Movement.StepTarget: its contract states the bounds and the retarget conditions, not the exact retarget goal; the goal is defined by the function body from the draws. The per-tick easing toward the goal is stated by Movement.TargetClosesOnGoal.
- Game.GameState.Frame: it writes `state.dt`, `last` and `state.t` after calling update rather than before. update reads none of them, so the resulting state is the same.
