# Oneko behaviour engine in Dafny

This project models the per-tick behaviour of the desktop cat of `oneko.py`:
the `OnekoWindow` timer callback `update_state` with its two handlers
`handle_digging` and `handle_idle_animations`, the sprite choice of
`set_direction_animation`, and the screen-geometry helpers
`get_virtual_desktop_geometry`, `is_cursor_on_screen` and `get_screen_edge`.

The cat is in one of four states: CHASING (walks toward the pointer), IDLE
(has caught it and sits, washes or sleeps), SURPRISED (startled out of a rest)
and DIGGING (the pointer is off every screen, so it scratches at the nearest
edge of the desktop). Each tick runs five checks in a fixed order: pointer off
screen, pointer caught (closer than 24), resting cat startled (farther than
64), surprise countdown, chase step. The sprite on display is an index in
[0, 31], and it changes only when that index's animation was loaded.

Files:

- `geometry.dfy` (module `Geometry`): Qt rectangles with `right = x + w - 1`,
  `bottom = y + h - 1` and inclusive `contains`; the virtual desktop (the
  bounding box of all screens); whether the pointer is on a screen; the
  nearest desktop edge and its two digging sprites.
- `direction.dfy` (module `Direction`): the eight 45-degree octants of
  `set_direction_animation` and the walking sprite `base + current_frame`.
- `behaviour.dfy` (module `Behaviour`): the constants of `initUI`, a
  `Snapshot` of every field a tick reads or writes, one tick as the pure
  function `Tick` (split into the branch functions `EnterDigging`,
  `EnterIdle`, `Startle`, `CountDown`, `Chase`, `DigTick`, `IdleTick`), the
  invariant `Inv` every tick keeps, and the lemmas that state what a tick
  and a run of ticks do.
- `oneko.dfy` (module `Oneko`): the class `OnekoWindow` with the source's
  fields. `UpdateState`, `HandleDigging`, `HandleIdleAnimations`,
  `SetDirectionAnimation` and `SetNekoMovie` update them step by step, as the
  source does. Each is proved to leave `Model()` equal to the matching pure
  function of `Behaviour` applied to the old `Model()`. `UpdateState` also
  keeps `Valid()`, which is `Inv`.

Inputs from outside a tick are parameters (`TickInput`): the pointer
position, the list of screen rectangles, the two `random.random()` draws, the
rounded chase step and the motion angle in degrees. The set of loaded
animations is the constant `avail`.

Distances are compared as squares: `dx*dx + dy*dy` against 576 (catch), 4096
(trigger) and 0. `SquaredThreshold` proves that this decides the same as
comparing the real square root with 24, 64 and 0. Python's `//` and `%` are
applied only to positive divisors here, where they agree with Dafny's
Euclidean operators.

Behaviour of the code worth noting:

- The octant tests at oneko.py:598-613 have their boundaries at 22.5, 67.5,
  112.5 and 157.5 degrees, so 44.9 degrees shows down-right (6/7)
  (`DirectionSpriteExamples`).
- When the surprise countdown reaches 0, the cat becomes CHASING and takes its
  step in that same tick, because the test at oneko.py:534 follows the
  countdown at 529-532 (`SurprisedTick`, `SurpriseEnds`).
- The digging sprites come from the edge nearest the pointer on the current
  tick (oneko.py:549). The `dig_direction` stored on entry is never read
  again; the model keeps it and proves it stays fixed (`DigStreak`).
- `handle_idle_animations` only runs after the state is set to IDLE. So the
  `state == DIGGING` test at oneko.py:569 is always false, and the chance of
  falling asleep is always 0.1 (`CaughtSitFallsAsleep`).
- An IDLE entered through a dig timeout (oneko.py:555-559) keeps `sleep` on
  the next caught tick, because the idle fields are reset at oneko.py:512-516
  only when the state was not IDLE (`CaughtTick`).

## Model

| member | source | states |
|---|---|---|
| Direction.Octant | oneko.py:598-613 | the eight-way test chain, taken in order; every real angle reaches one branch (`OctantIsNearest`, `OctantBoundaries`) |
| Geometry.VirtualDesktop | oneko.py:450-463 | the min/max bounding box of the screens (`VirtualDesktopIsBoundingBox`) |
| Geometry.Minimum | oneko.py:457-458 | Python `min`; it is at most the first element (`MinimumIsLeast` gives the rest) |
| Geometry.Maximum | oneko.py:459-460 | Python `max`; it is at least the first element (`MaximumIsGreatest` gives the rest) |
| Geometry.OnAnyScreen | oneko.py:465-473 | the any-loop over the screens in order (`OnAnyScreenIff`) |
| Geometry.NearestEdge | oneko.py:479-493 | the four edge distances and the if-chain top, bottom, left, right (`NearestEdgeIsNearest`, `NearestEdgeCharacterized`) |
| Geometry.ScreenEdge | oneko.py:475-493 | the nearest edge of the virtual desktop, paired with that edge's digging sprites |
| Behaviour.Dx | oneko.py:496-499 | horizontal offset from the sprite centre to the pointer plus OFFSET_X |
| Behaviour.Dy | oneko.py:496-500 | vertical offset from the sprite centre to the pointer plus OFFSET_Y |
| Behaviour.DistanceSquared | oneko.py:499-501 | the square of `distance` (`DistanceSquaredZero`, `SquaredThreshold`) |
| Behaviour.Show | oneko.py:158-161 | `setNekoMovie` guarded by `in self.animations`: switch to a loaded sprite, keep the display otherwise |
| Behaviour.ShowDirection | oneko.py:615-616 | show the walking sprite of the angle for the current parity |
| Behaviour.IdleTransition | oneko.py:564-575 | the sit/wash/sleep choice on a 100-tick mark (`SitTransitions`, `WashTransitions`, `SleepStays`) |
| Behaviour.IdleTick | oneko.py:561-593 | `handle_idle_animations` on a snapshot (`IdleTimerAndPeriod`, `IdleSprites`) |
| Behaviour.DigTick | oneko.py:547-559 | `handle_digging` on a snapshot, with the pair of the current nearest edge (`OffScreenTick`, `LastDigTick`) |
| Behaviour.EnterDigging | oneko.py:503-507 | entry into DIGGING: timer 0 and direction set only when not already digging |
| Behaviour.EnterIdle | oneko.py:511-518 | entry into IDLE: timer 0, sit, counter 0 and sprite 24 only when not already idle |
| Behaviour.Startle | oneko.py:522-527 | SURPRISED, sprite 31 if loaded, countdown 5 (`StartleTick`) |
| Behaviour.CountDown | oneko.py:529-532 | the surprise countdown and the switch to CHASING at 0 or below (`SurprisedTick`) |
| Behaviour.Chase | oneko.py:534-545 | the step, the parity flip and the direction sprite (`ChasingTick`, `ParityFlipsOnlyWhenMoving`) |
| Behaviour.Tick | oneko.py:495-545 | `update_state` on a snapshot: the five checks in the source's order (`TickPreservesInv` and the per-case lemmas below) |
| Behaviour.Initial | oneko.py:20-29 | the fields of oneko.py:118-128 with the window centred on the pointer (`InitialInv`) |
| Direction.DirectionSprite | oneko.py:595-616 | the walking sprite is in [0, 15] and has the walk parity as its parity; it is the octant's base plus the parity |
| Direction.OctantIsNearest | oneko.py:598-613 | every angle in [-180, 180] gets a heading whose centre is within 22.5 degrees and no farther than any other heading's centre |
| Direction.OctantBoundaries | oneko.py:598-613 | each boundary angle goes to the octant whose test includes it: +-22.5 right, 67.5 down-right, 112.5 down, 157.5 down-left, -157.5 left, -112.5 up-left, -67.5 up |
| Direction.DirectionSpriteExamples | oneko.py:598-616 | 0 degrees shows 4/5, 180 shows 12/13, 22.5 shows 4, 22.5001 shows 6, -157.5 shows 13, 44.9 and 45.1 show 6, 90 shows 8, -90 shows 1 |
| Geometry.MinimumIsLeast | oneko.py:457-458 | `min` over the screens is at most every element and equals one of them |
| Geometry.MaximumIsGreatest | oneko.py:459-460 | `max` over the screens is at least every element and equals one of them |
| Geometry.VirtualDesktopIsBoundingBox | oneko.py:450-463 | for a nonempty screen list the desktop rectangle encloses every screen, its size is nonnegative, and each side is a side of some screen |
| Geometry.OnScreenInsideDesktop | oneko.py:457-471 | a point contained in some screen is contained in the virtual desktop |
| Geometry.OnAnyScreenIff | oneko.py:465-473 | the pointer is on a screen exactly when some screen rectangle contains it, `contains` being inclusive of `right()` and `bottom()` |
| Geometry.OffScreenInsideBoundingBox | oneko.py:465-473 | a pointer can be off every screen and still inside the desktop's bounding box (two screens at different heights) |
| Geometry.DigFrames | oneko.py:486-493 | each edge's digging pair is two consecutive indices in [16, 23] starting at an even index |
| Geometry.NearestEdgeIsNearest | oneko.py:479-493 | the chosen edge's distance is the minimum of the four, and every edge before it in the order top, bottom, left, right is strictly farther |
| Geometry.NearestEdgeCharacterized | oneko.py:479-493 | an edge is chosen if and only if it is at minimal distance and every edge ranked before it is strictly farther |
| Geometry.ScreenEdgeExamples | oneko.py:475-493 | on a 1920x1080 desktop a pointer at (-5, -5) digs up (16, 17), one at (1925, 500) digs right (18, 19), one at (960, 1085) digs down (20, 21) |
| Behaviour.DistanceSquaredZero | oneko.py:499-501 | the squared distance is nonnegative and is zero exactly when both offsets are zero |
| Behaviour.SquaredThreshold | oneko.py:501-522 | for any nonnegative root of the squared distance, comparing it with k gives the same answer as comparing the square with k * k |
| Behaviour.Run | oneko.py:144-146 | the state after any sequence of timer ticks still satisfies the invariant |
| Behaviour.InitialInv | oneko.py:118-128 | the initial state (CHASING, counters 0, frame 0, nothing shown) satisfies the invariant |
| Behaviour.IdleTickKeepsInv | oneko.py:561-593 | an idle tick from a coherent IDLE state satisfies the invariant |
| Behaviour.TickPreservesInv | oneko.py:495-593 | every tick keeps the invariant: frame in {0, 1}, dig timer, idle timer, action counter and countdown nonnegative, dig timer in [1, 49] while digging, countdown in [1, 5] while surprised, and the sprite shown is a loaded index in [0, 31] |
| Behaviour.OffScreenTick | oneko.py:503-559 | with the pointer off screen the dig timer is restarted and the direction taken only on entry, the timer goes up by one, the sprite is `pair[dig_timer % 2]` of the current nearest edge, and the tick ends in IDLE/sleep with timer 301 and counter 0 exactly on the 50th dig tick, DIGGING otherwise; position, frame and countdown are unchanged |
| Behaviour.CaughtTick | oneko.py:511-520 | with the pointer caught the tick ends IDLE whatever the prior state; timer, action (`sit`), counter and sprite 24 are reset only when the cat was not IDLE, and an IDLE cat's tick is exactly the idle handler on its own fields, so a sleeping IDLE cat stays asleep |
| Behaviour.CaughtSitFallsAsleep | oneko.py:564-571 | inside a tick a sitting cat falls asleep exactly on a 100-tick mark past 300 with the first draw at least 0.15 and the second below 0.1, and starts washing exactly on a mark with the first draw below 0.15 |
| Behaviour.StartleTick | oneko.py:522-527 | an IDLE or DIGGING cat farther than 64 becomes SURPRISED with countdown 5, shows sprite 31 if loaded, and neither moves nor changes its idle and dig counters |
| Behaviour.RestingUnchanged | oneko.py:522-545 | an IDLE or DIGGING cat whose pointer is on screen at a distance between 24 and 64 inclusive is left exactly as it was |
| Behaviour.SurprisedTick | oneko.py:529-545 | a SURPRISED cat counts down by one; above 1 it stays put, and at 1 or below it becomes CHASING, takes the step and flips its parity in the same tick |
| Behaviour.ChasingTick | oneko.py:534-545 | a CHASING cat whose pointer is on screen and not caught takes the step, flips its parity and shows the direction sprite for the new parity if loaded |
| Behaviour.ParityFlipsOnlyWhenMoving | oneko.py:534-545 | the walk parity changes exactly on ticks where the cat moves, the position changes on no other tick, and a moving tick moves by the step |
| Behaviour.IdleTimerAndPeriod | oneko.py:561-575 | an idle tick adds one to the idle timer and changes the action only when the new timer is a multiple of 100 |
| Behaviour.SitTransitions | oneko.py:565-571 | from sit: wash exactly on a 100-tick mark with the first draw below 0.15; sleep exactly on a mark with the first draw at least 0.15, the timer past 300 and the second draw below the sleep chance; a new action starts its counter at 1 |
| Behaviour.WashTransitions | oneko.py:572-584 | from wash: back to sit exactly on a 100-tick mark with the counter past 30 (counter reset), never to sleep; otherwise the counter goes up by one |
| Behaviour.SleepStays | oneko.py:564-590 | sleep never ends inside the idle handler, and its counter goes up by one each tick |
| Behaviour.IdleSprites | oneko.py:577-593 | sit shows 24; wash shows 24 + (timer // 3) % 2; sleep shows 26 while the counter is below 20, then 28 + (timer // 5) % 2; an unloaded sprite leaves the display unchanged |
| Behaviour.DigStreak | oneko.py:503-559 | while the pointer stays off screen, the k-th tick of a dig episode (k < 50) is DIGGING with dig timer k and the direction chosen on the first tick |
| Behaviour.LastDigTick | oneko.py:555-559 | the tick that brings the dig timer to 50 ends IDLE, asleep, with idle timer 301 and counter 0 |
| Behaviour.DigTimeout | oneko.py:547-559 | fifty off-screen ticks from any state other than DIGGING end IDLE, asleep, with idle timer 301, counter 0 and dig timer 50 |
| Behaviour.SurpriseHolds | oneko.py:529-533 | a SURPRISED cat with an uncaught on-screen pointer stays SURPRISED and still for countdown - 1 ticks, the countdown falling by one each tick |
| Behaviour.SurpriseEnds | oneko.py:529-545 | on the tick the countdown runs out the cat is CHASING and has taken that tick's step |
| Oneko.OnekoWindow.constructor | oneko.py:20-29 | the window starts CHASING with every counter 0, no sprite shown, centred on the pointer, and valid |
| Oneko.OnekoWindow.SetNekoMovie | oneko.py:158-161 | the display shows the requested loaded sprite afterwards, and nothing else changes |
| Oneko.OnekoWindow.SetDirectionAnimation | oneko.py:595-616 | the display changes to the octant's walking sprite for the current parity when it is loaded, and is left alone otherwise |
| Oneko.OnekoWindow.HandleDigging | oneko.py:547-559 | the fields afterwards are those of `DigTick` of the old fields |
| Oneko.OnekoWindow.HandleIdleAnimations | oneko.py:561-593 | the fields afterwards are those of `IdleTick` of the old fields |
| Oneko.OnekoWindow.UpdateState | oneko.py:495-545 | the fields afterwards are those of `Tick` of the old fields, and the invariant still holds |

## Left out

- Rendering and Qt movie handling: `paintEvent`, `on_frame_changed` and its
  throttling, and the body of `setNekoMovie` beyond "switch when loaded and
  different". The check at oneko.py:164-171 can skip a switch when a movie
  is not running and its first frame is still empty. It applies for the whole
  run, since nothing calls `complete_initialization` and
  `initialization_complete` stays False. The model always switches.
- `loadAnimations` file discovery and `QMovie` setup: only its result is
  modelled, as the set `avail` of loaded indices.
- Tray icon, menu, `toggleVisibility`, and autostart file writing and
  `launchctl` calls: operating-system integration.
- Window flags, the `QTimer` itself and `complete_initialization`. The timer
  is modelled as `Run`, which applies `Tick` to a sequence of inputs.
- Floating point: `math.sqrt`, `math.atan2`, `math.degrees` and `round` in
  the chase step. The step and the angle are inputs of each tick, so the
  model does not relate the step's length (about 24) or the angle to the
  offset `dx, dy`.
- Repeated reads of the pointer and the screens within one tick: the source
  calls `QCursor.pos()` at oneko.py:496, again in `is_cursor_on_screen`
  (466) and in `get_screen_edge` (476, reached from both 507 and 549), and
  `app.screens()` at 452 and 468. The model reads one pointer position and
  one screen list per tick (`TickInput`), so it does not capture a pointer or
  a screen layout that changes between those reads.
- `random.random()`: its two draws are inputs. The second draw is used only
  where the source would make the second call.
- The fallback to the primary screen for an empty screen list
  (oneko.py:454-455): every operation requires at least one screen.
- Screen rectangles with negative width or height, which Qt allows but
  screens do not have: `Rect` sizes are natural numbers.
- Qt's 32-bit coordinates: positions are unbounded integers, so overflow is
  not modelled.
- The fields `sleep_counter` and `idle_action_timer` (oneko.py:120, 124),
  which are set once and never read.
- The early return of `initUI` when no animation loads (oneko.py:131-133):
  the model always starts the behaviour.
- Two runs fed the same inputs give the same states: this holds because
  `Tick` and `Run` are functions, so no lemma states it.
