# Dodge the Needles — a Dafny model of the game logic

"Dodge the Needles" (`baloon-game.py`) is a single-screen pygame game: a balloon moves
with the arrow keys at the bottom of a 1500×800 window while needles fall from the top.
Needles spawn at a random x, fall at the speed they were given when they spawned, and
score a point each when they pass the bottom edge. Every ten seconds the game gets
harder: the base needle speed grows by 0.05 and the spawn interval shrinks by 10 ticks,
down to 50. A hit on the balloon ends the round; a menu starts the game and a game-over
screen offers retry and quit.

This project models the game logic between the pygame calls:

- `geometry.dfy` (`Geometry`): rectangles, `colliderect` as strict overlap and
  `collidepoint` as a half-open test.
- `needles.dfy` (`Needles`): a needle `[x, y, speed]`, advancing it, and the filters that
  decide which needles stay and which are removed. It also proves that Python's remove-by-value
  loop removes exactly the off-screen needles.
- `sequences.dfy` (`Sequences`): `list.remove` as a function on sequences.
- `collision.dfy` (`Collision`): `is_collision`, with the needle split into a shaft hitbox
  and a pinhead hitbox.
- `rules.dfy` (`Rules`): the module globals as one value (`World`), and the per-frame rules
  as functions:
  - `Reset`, `Moved`, `Escalated` and `Spawned`;
  - `AfterStep`, the whole PLAYING branch;
  - `AfterClick`, `AfterEvent` and `AfterEvents`, the event handling;
  - `AfterFrame`, one pass of the main loop;
  - `Run`, the `while running` loop.
- `properties.dfy` (`Properties`): what these rules guarantee. This covers each frame
  (bounds, escalation, spawning, advancing, reaping and scoring, hits) and whole runs
  (the invariant `ValidWorld` holds in every reachable state, and the menu is never shown
  again).
- `session.dfy` (`Session`): the class `GameSession`. Its fields are the globals, and its
  methods update them in place as the source does:
  - `enemies` is mutated element by element in one loop, then shrunk by `remove` in a
    second loop;
  - `ResetGame`, `HandleEvent`, `Step`, `RunFrame` and `Play` are each proved to leave the
    globals equal to the matching function of `Rules` (`Reset`, `AfterEvent`, `AfterStep`,
    `AfterFrame`, `Run`) and to keep `Valid()`;
  - the parts of `Step` are proved against smaller functions and keep no invariant of their
    own: `Prepare`, `MovePlayer`, `Escalate` and `Spawn` against `Prepared`, `Moved`,
    `Escalated` and `Spawned`; `Resolve`, `AdvanceAt`, `AdvanceNeedles` and `RemoveMarked`
    against `Needles.Advanced`, `Needles.AdvanceAll`, `Needles.Marked`, `Needles.Survivors`
    and `Collision.AnyCollision`.

Positions and speeds are exact `real`s, ticks and the spawn interval are `int`s, and a
needle's x is the `int` that `random.randint(0, 1490)` returns. The clock, the keyboard,
the event queue and the random number are inputs of the methods (`now`, the four key
flags, a sequence of `Event`s, `spawnX`).

Behaviour worth knowing, as the code has it (and as the model states it):
- A needle spawns only when strictly more than the spawn interval has passed. Escalation
  happens only after strictly more than 10000 ticks.
- A hit sets GAME_OVER but does not stop the frame. The rest of the needles still fall,
  and the off-screen ones are still removed and scored in that same frame.
- A needle is removed in the same frame in which its top passes y = 800.
- A needle spawned in a frame has already fallen once (to y = its speed) by the end of
  that frame.
- The start button does not call `reset_game`. `StartMatchesReset` shows that this makes
  no difference on the start-up state.
- `reset_game` leaves both timestamps alone. A retry pressed more than ten seconds after
  the last escalation therefore escalates again in the very first frame of the new round
  (`RetryAfterPauseEscalatesAtOnce`).
- Removal is by value (`list.remove`). Equal needles are interchangeable, so this removes
  exactly the off-screen needles (`DropMarkedNext`, `DropMarkedAll`).

## Model

| member | source | states |
|---|---|---|
| Geometry.Overlaps | baloon-game.py:110 | `colliderect` (assumed strict overlap): two rectangles of positive size that overlap share the corner where both begin under `collidepoint`; `OverlapsSymmetric`, `OverlapsIffNotSeparated` and `OverlapsEnclosing` state the rest |
| Geometry.ContainsPoint | baloon-game.py:126-135 | `collidepoint` (assumed half-open): a rectangle without area contains no point; `Properties.ButtonsDisjoint` and `Properties.MissedClickIsIgnored` use it for the buttons |
| Geometry.OverlapsSymmetric | baloon-game.py:110 | the overlap test gives the same answer with its two rectangles swapped |
| Geometry.OverlapsIffNotSeparated | baloon-game.py:110 | two rectangles overlap iff neither lies wholly left of, right of, above or below the other |
| Geometry.OverlapsEnclosing | baloon-game.py:105-110 | overlapping a rectangle inside another means overlapping the enclosing one |
| Sequences.RemoveFirst | baloon-game.py:178 | `list.remove` on a present element shortens the list by one and takes out exactly one copy of that element (multiset difference) |
| Sequences.RemoveFirstCut | baloon-game.py:178 | when the element does not occur before a given occurrence, `list.remove` takes out exactly that occurrence |
| Sequences.RemoveFirstSplits | baloon-game.py:178 | `list.remove` cuts the list at the first equal element and keeps everything else in order |
| Needles.Advanced | baloon-game.py:168 | `enemy[1] += enemy[2]`: one needle falls by its own speed; stated for whole lists by `Needles.AdvanceAll` and for a frame by `Properties.StepMovesEachNeedle` |
| Needles.AdvanceAll | baloon-game.py:167-168 | every needle falls by its own stored speed; its x and speed are unchanged and the list keeps its length |
| Needles.Survivors | baloon-game.py:174-179 | the kept needles are exactly the needles of the list whose y is at most 800 |
| Needles.Marked | baloon-game.py:174-175 | `enemies_to_remove` holds exactly the needles whose y exceeds 800 |
| Needles.SurvivorsMarkedPartition | baloon-game.py:174-179 | every needle is kept or removed, never both: the counts and the multisets add up to the whole list |
| Needles.SurvivorsAppend | baloon-game.py:177-178 | the kept needles keep their original relative order |
| Needles.SurvivorsAround | baloon-game.py:174-179 | a kept needle keeps its place: the needles kept before it stay before it and those after stay after |
| Needles.MarkedAppend | baloon-game.py:174-175 | the removal list is built in list order |
| Needles.SurvivorsAllOnScreen | baloon-game.py:174-179 | when no needle is past the bottom edge, nothing is removed |
| Needles.DropMarkedAll | baloon-game.py:177-178 | after every listed needle has been removed, exactly the on-screen needles remain, in order |
| Needles.DropMarkedNext | baloon-game.py:177-178 | each `enemies.remove(enemy)` finds the listed needle and removes exactly the next off-screen needle, despite removing by value |
| Collision.IsCollision | baloon-game.py:102-110 | the balloon hits a needle iff it overlaps the shaft or the pinhead; `CollisionWithinBounds`, `BoundsOverlapIsNotCollision`, `CollisionSymmetric`, `NeedleBelowMisses`, `NeedleAboveMisses`, `NeedleBesideMisses` and `NeedleOnTopHits` describe which positions hit |
| Collision.CollisionWithinBounds | baloon-game.py:105-110 | every hit on the shaft or pinhead is a hit on the needle's bounding box |
| Collision.BoundsOverlapIsNotCollision | baloon-game.py:106-110 | a balloon beside the shaft and below the pinhead touches the bounding box without a hit, which is why the needle is split in two hitboxes |
| Collision.CollisionSymmetric | baloon-game.py:110 | the hit test is the same with the needle's hitboxes tested against the balloon |
| Collision.NeedleBelowMisses | baloon-game.py:102-110 | a needle whose top is at or below the balloon's bottom edge does not hit it |
| Collision.NeedleAboveMisses | baloon-game.py:102-110 | a needle whose tip is at or above the balloon's top edge does not hit it |
| Collision.NeedleBesideMisses | baloon-game.py:102-110 | a needle wholly left or right of the balloon does not hit it |
| Collision.NeedleOnTopHits | baloon-game.py:102-110 | a needle over the balloon's middle whose span meets the balloon's height hits it |
| Rules.Initial | baloon-game.py:28-47 | the start-up globals, with the two timers from two separate tick readings (lines 114-115), satisfy the invariant, in the start menu, with the loop running |
| Rules.Reset | baloon-game.py:73-83 | `reset_game` gives a valid state in PLAYING with score 0 and no needles, and leaves both timestamps and `running` unchanged |
| Rules.Nudge | baloon-game.py:142-149 | a coordinate moves by 1.5 for one pressed key of a pair, and stays when both or neither are pressed |
| Rules.Clamp | baloon-game.py:151-152 | `max(0, min(v, hi))` lies in [0, hi], is v when v is in range, 0 below and hi above |
| Rules.Moved | baloon-game.py:141-152 | after movement the balloon is inside the screen and nothing but its position changed |
| Rules.LoweredRate | baloon-game.py:157 | the lowered spawn interval is never below 50 and never above the old one, and is 10 less whenever that stays at or above 50 |
| Rules.Escalated | baloon-game.py:155-158 | escalation happens only strictly after 10000 ticks, then adds exactly 0.05 to the base speed, lowers the interval but not below 50, and sets the timestamp to now; otherwise nothing changes |
| Rules.Spawned | baloon-game.py:160-164 | only when strictly more than the interval has passed, exactly one needle is appended, at the spawn x, at y = 0, with the current base speed, and the spawn time becomes now; otherwise nothing changes |
| Rules.AfterStep | baloon-game.py:140-179 | the PLAYING branch never stops the loop, never lowers the score, and either ends the round or keeps the state; `Properties.StepPreservesValid` through `Properties.StepEndsRoundOnHit` state each part |
| Rules.AfterClick | baloon-game.py:123-138 | a click changes nothing, starts a round or ends the loop, and never restarts a stopped loop; `Properties.StartOnlySetsPlaying`, `Properties.RetryResets`, `Properties.QuitButtonsEndLoop` and `Properties.MissedClickIsIgnored` state what each button does |
| Rules.AfterEvent | baloon-game.py:118-138 | one event changes nothing, starts a round or ends the loop, and never restarts it; `Properties.CloseStops` states that the close event stops the loop, and `Properties.EventPreservesValid` that the invariant is kept |
| Rules.AfterEvents | baloon-game.py:118-138 | the events of a frame never restart a stopped loop; `Properties.EventsPreserveValid` and `Properties.EventsKeepState` state the rest |
| Rules.AfterFrame | baloon-game.py:117-179 | one pass of the loop never restarts a stopped loop; `Properties.FramePreservesValid`, `Properties.FrameMonotoneWhilePlaying` and `Properties.FrameFrozenOutsidePlay` (outside a round nothing but `running` changes) state the rest |
| Rules.Run | baloon-game.py:117-179 | `while running` takes no frame once `running` is false and never sets it again; `Properties.RunPreservesValid`, `Properties.RunNeverReturnsToMenu` and `Properties.MenuRunFrozen` state the rest |
| Properties.PreparedEnemies | baloon-game.py:160-164 | before advancing, the needle list is the old list, plus the fresh needle when one spawned |
| Properties.StepPreservesValid | baloon-game.py:140-179 | the PLAYING step keeps the balloon on screen, the interval in [50, 200], the base speed at least 0.5, and every needle within the screen's width, on screen, and no faster than the base speed |
| Properties.StepScoreCountsRemoved | baloon-game.py:177-179 | the score rises by exactly the number of needles removed and never falls |
| Properties.StepReapsOffScreen | baloon-game.py:174-179 | the kept needles are exactly the advanced needles with y ≤ 800, in their original order; the removed ones are exactly those with y > 800 |
| Properties.StepMovesEachNeedle | baloon-game.py:163-168 | each needle falls by its own stored speed, not by a base speed that was just raised, and stays iff it is still on screen |
| Properties.StepSpawnsAtMostOne | baloon-game.py:160-164 | a frame adds one needle when the interval has strictly passed (at the spawn x, at the escalated base speed, already fallen once) and none otherwise |
| Properties.StepEscalates | baloon-game.py:154-158 | across a step the base speed never falls and the interval never rises or drops below 50; after strictly more than 10000 ticks they change by exactly +0.05 and −10 (floored at 50) and the timestamp becomes now |
| Properties.StepMovesBalloon | baloon-game.py:141-152 | the balloon ends inside the screen, opposite keys cancel, and a single key moves it 1.5 unless the edge stops it |
| Properties.StepEndsRoundOnHit | baloon-game.py:166-173 | the step ends the round iff some advanced needle hits the balloon at its new position; several hits end it just the same |
| Properties.OffScreenNeedleCannotHit | baloon-game.py:169-175 | a needle past the bottom edge cannot hit an on-screen balloon, so removing it never hides a hit |
| Properties.ButtonsDisjoint | baloon-game.py:125-135 | no click is inside both buttons of a screen, so the order of the tests is immaterial |
| Properties.StartMatchesReset | baloon-game.py:125-127 | the start button only switches to PLAYING, which on the start-up state equals `reset_game` |
| Properties.StartOnlySetsPlaying | baloon-game.py:125-127 | in any start-menu state, a click on the start button sets PLAYING and changes nothing else; `reset_game` is not called |
| Properties.QuitButtonsEndLoop | baloon-game.py:128-138 | a click on the quit button of the start menu or of the game-over screen sets `running` to false and changes nothing else |
| Properties.CloseStops | baloon-game.py:119-120 | the window's close event sets `running` to false and changes nothing else |
| Properties.RetryResets | baloon-game.py:130-134 | retry in GAME_OVER gives score 0, no needles, speed 0.5, interval 200, the balloon at (730, 710), and keeps the old timestamps |
| Properties.MissedClickIsIgnored | baloon-game.py:123-138 | a click outside every button, or any click while playing, changes nothing |
| Properties.EventPreservesValid | baloon-game.py:118-138 | handling one event keeps the invariant |
| Properties.EventsPreserveValid | baloon-game.py:118-138 | handling a frame's events keeps the invariant |
| Properties.EventsKeepState | baloon-game.py:118-138 | no event returns to the start menu, and events during a round change at most `running` |
| Properties.FramePreservesValid | baloon-game.py:117-179 | one pass of the main loop keeps the invariant |
| Properties.FrameMonotoneWhilePlaying | baloon-game.py:117-179 | during a round the score and base speed never fall and the spawn interval never rises |
| Properties.RunPreservesValid | baloon-game.py:117-179 | from a valid state, every sequence of frames leads to a valid state; in particular the balloon is never off screen |
| Properties.RunNeverReturnsToMenu | baloon-game.py:117-138 | once the start menu is left it is never shown again |
| Properties.EventsOutsidePlay | baloon-game.py:118-138 | outside a round, a frame's events either start one (start or retry) or change nothing but `running` |
| Properties.FrameFrozenOutsidePlay | baloon-game.py:117-140 | a frame in the start menu or GAME_OVER that does not start a round leaves needles, score, difficulty, timers and balloon unchanged, since the PLAYING branch is guarded by the state; only `running` may change |
| Properties.MenuRunFrozen | baloon-game.py:117-140 | a run that is still in the start menu has changed nothing but `running`, so the start click begins the round from the values the menu was entered with |
| Properties.RetryAfterPauseEscalatesAtOnce | baloon-game.py:73-83 | because `reset_game` keeps the escalation timestamp, a retry more than 10000 ticks after the last escalation starts the round at speed 0.55 and interval 190 |
| Session.AdvanceOneMore | baloon-game.py:166-175 | one round of the first loop advances the next needle and adds its hit test and off-screen test to what the earlier rounds found |
| Session.GameSession.constructor | baloon-game.py:28-47 | the session starts in the start menu with the initial globals, each timer at its own tick reading (lines 114-115) |
| Session.GameSession.ResetGame | baloon-game.py:73-83 | the globals become `Reset` of the old ones |
| Session.GameSession.HandleEvent | baloon-game.py:118-138 | the close event stops the loop and a click updates the globals as `AfterClick` says; the invariant is kept |
| Session.GameSession.Step | baloon-game.py:140-179 | the globals become `AfterStep` of the old ones and the invariant is kept |
| Session.GameSession.Prepare | baloon-game.py:141-164 | movement, escalation and spawning leave the globals equal to `Prepared` of the old ones |
| Session.GameSession.Resolve | baloon-game.py:166-179 | the two loops leave the survivors of the advanced needles, one more point per removed needle, and GAME_OVER iff some advanced needle hits |
| Session.GameSession.MovePlayer | baloon-game.py:141-152 | the balloon's position becomes `Moved` of the old one |
| Session.GameSession.Escalate | baloon-game.py:154-158 | speed, interval and escalation time become `Escalated` of the old ones |
| Session.GameSession.Spawn | baloon-game.py:160-164 | the needle list and spawn time become `Spawned` of the old ones |
| Session.GameSession.AdvanceNeedles | baloon-game.py:166-175 | the loop advances every needle in place, returns exactly the off-screen needles in order, and leaves GAME_OVER iff some needle hits |
| Session.GameSession.AdvanceAt | baloon-game.py:167-173 | one needle falls by its speed in place, and a hit sets GAME_OVER |
| Session.GameSession.RemoveMarked | baloon-game.py:177-179 | removing the listed needles one by one leaves exactly the survivors and adds one point per needle removed |
| Session.GameSession.RunFrame | baloon-game.py:117-179 | one pass of the loop: the globals become `AfterFrame` of the old ones |
| Session.GameSession.Play | baloon-game.py:113-117 | `while running` plays frames until `running` is false or the inputs run out, and the globals become `Run` of the old ones |

## Left out

- Drawing: `draw_balloon`, `draw_downward_triangle`, the background, the score text, the
  menu and game-over screens, and `pygame.display.update`. These are pygame calls with no
  logic.
- Asset loading: the sound and the background image, their `try/except` fallbacks and the
  `print` warnings. This is I/O that never reaches the game state.
- Sound: `pop_sound.play()` on a hit and `pop_sound.stop()` on retry or quit. These are side
  effects in a foreign library.
- `pygame.event.get`, `pygame.key.get_pressed` and `pygame.time.get_ticks` are inputs of
  the methods. `random.randint(0, 1490)` is a `spawnX` parameter required to lie in
  [0, 1490]; its uniform distribution is not modelled.
- `pygame.init`, the window set-up and `pygame.quit` are left out.
- The rectangle semantics are assumptions about pygame, not derived from its code:
  - `colliderect` is strict overlap on both axes;
  - `collidepoint` includes the left and top edges and excludes the right and bottom ones.
- `pygame.Rect` stores integer coordinates. How it converts the float coordinates it is
  given (truncation or rounding) is not modelled. The hit test is stated on exact reals.
- Floating point: positions and speeds are exact reals, and IEEE rounding is not modelled.
  The balloon's coordinates are always multiples of 0.5 (start 730 and 710, steps of 1.5,
  clamps to 0, 1460 and 740), which doubles hold exactly, so movement is unaffected. The
  base speed grows by `+= 0.05`, which is not exact in binary, and each frame's
  `enemy[1] += enemy[2]` rounds its sum. A needle's stored y can therefore differ slightly
  from the exact sum, which can move the frame in which `y > 800` first holds, or in which
  a hit first occurs, by one.
- Button rectangles: the source binds `start_button_rect`, `quit_button_rect` and
  `retry_button_rect` only while drawing a screen. The model uses fixed rectangles per
  screen instead, with the values those drawing lines compute. It does not model two
  effects of the late binding, both a `NameError` that ends the program:
  - a click in the very first frame, in the start menu, evaluates `start_button_rect`
    (line 126) before the menu drawing at line 215 has bound it;
  - a click in the first GAME_OVER frame, before that screen was ever drawn, evaluates
    `retry_button_rect` (line 131) before line 240 binds it, so the quit test at line 135
    is never reached. Once the game-over screen has been drawn, `quit_button_rect` is its
    own quit rectangle (line 247).
- `Sequences.RemoveFirst`: requires the element to be present. Python raises `ValueError`
  otherwise; the game only removes needles it has just listed (`Needles.DropMarkedNext`
  proves they are present).
