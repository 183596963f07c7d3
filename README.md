# Radicchio Kitchens: a verified model of the game core

This project models the gameplay core of *Radicchio Kitchens*, a two-phase pygame minigame, in Dafny.

- **PREP**: ingredients spawn in the top third of the screen. A mouse click on one scores a point and removes it. A click on nothing costs 15 sanity.
- **TRAUMA**: the player traces a randomly generated nerve path. Straying more than 22 pixels from the path drains one point of sanity per frame. Reaching the right-hand end zone while on the path restores sanity to 50 and returns to PREP.
- PREP switches to TRAUMA as soon as sanity is at or below 20.

Modules, one per component:

- `Settings` (`settings.dfy`): the gameplay constants of `settings.py`.
- `Geometry` (`geometry.dfy`): points, pygame's `Rect.collidepoint` (half-open on both axes) and the `max(lo, min(hi, v))` clamp.
- `Nerve` (`nerve.dfy`): `NervePath` from `sprites.py`.
  - Path generation is a `while` loop proved equal to the recursive definition `GeneratedPath`, whose shape is proved as lemmas.
  - The point-to-segment distance is proved to be the distance to the nearest point of the segment.
  - The deviation query is a `for` loop proved equal to the recursive running minimum `Deviation`.
- `Ingredients` (`ingredients.dfy`): where a new `Ingredient` is placed, and the alpha of its blinking warning.
- `Hands` (`hands.dfy`): the `ChefHand` class (left-hand picture, knife pose) and its angle clamps.
- `StateMachine` (`state_manager.dfy`): the `StateManager` class.
  - Its fields are the source's fields, and its methods change them in place.
  - Each method is proved to leave the fields equal to a pure step function (`AfterInput`, `AfterUpdate`) of the old fields.
  - The rules of the game are lemmas about those step functions and about runs of many steps.

Modelling choices:

- **Distances are squared and exact.** Dafny has no square root, so distances are exact `real`s compared squared: `distance > 22` becomes `distance² > 484`. Python's `float('inf')`, the starting value of the minimum, is `Distance.Infinite`.
- **Inputs become parameters.** The clock (`pygame.time.get_ticks()`), the pointer position and the events are parameters.
- **Random draws become inputs.**
  - A path consumes a sequence of `Draw(dx, dy)` with `dx` in [30, 80] and `dy` in [-50, 50]. At least 40 draws are supplied, which is enough for any run of the loop.
  - An ingredient's `randrange(lo, hi)` draws are arbitrary integers reduced into `[lo, hi)` (`RandRange`). Every value of the range is reachable.
- **The ingredient's size is an input.** The rotated image's width and height, which pygame computes, are passed in.
- **Ingredient order is kept.** The pygame sprite group is a sequence in insertion order, so "the first ingredient clicked" is the first one in the sequence. `kill()` becomes removal by index.

The model follows the code as written:

- A click scores a point and a click on nothing costs the miss penalty. `settings.py` declares `INGREDIENT_LIFETIME`, `DAMAGE_TICK_INTERVAL` and `GRACE_PERIOD_DURATION`, but the state machine and the sprites never read them, so ingredients never expire and there is no grace period.
- Switching to TRAUMA leaves the ingredient collection as it is; it is emptied only on the return to PREP.
- An ingredient's angle is `random.randint(0, 360)`, so 360 is included.
- Sanity drains by 1 on every TRAUMA update while deviated; `DAMAGE_TICK_INTERVAL` (750 ms) is declared but unused.

## Model

| member | source | states |
|---|---|---|
| `Geometry.Clamp` | sprites.py:257 | `max(lo, min(hi, v))` lies in [lo, hi], is v itself when v is in range, and is the point of [lo, hi] nearest to v |
| `Nerve.GeneratePath` | sprites.py:219-238 | the while loop that appends clamped steps until x reaches SCREEN_WIDTH − 50 returns exactly the polyline `GeneratedPath(ds)` |
| `Nerve.WalkSteps` | sprites.py:229-230 | from any x left of SCREEN_WIDTH − 50, every remaining loop iteration steps x forward by 30..80 |
| `Nerve.WalkInBand` | sprites.py:231-236 | every point the loop appends has y clamped into [50, SCREEN_HEIGHT // 3] |
| `Nerve.WalkStops` | sprites.py:229-236 | from any x left of SCREEN_WIDTH − 50 the loop appends at least one point and stops at the first point at or past the edge |
| `Nerve.GeneratedPathShape` | sprites.py:222-236 | a generated path starts at (50, SCREEN_HEIGHT // 2), has at least 2 points, x grows by 30..80 per step, every later point has y in [50, 240], the last x is ≥ 1230 and every earlier x is < 1230 |
| `Nerve.StartOutsideBand` | sprites.py:223-235 | the start's y (360) lies outside the band [50, 240] that later points are clamped into |
| `Nerve.SecondPointOnBandEdge` | sprites.py:223-235 | the first step always lands on y = SCREEN_HEIGHT // 3, because 360 − 50 is already below the band |
| `Nerve.NewNervePath` | sprites.py:213-217 | `NervePath.__init__`: the path has ≥ 2 points, starts at (50, 360), and `start_point`/`end_point` are its first and last points |
| `Nerve.ClampY` | sprites.py:233-234 | `max(50, min(SCREEN_HEIGHT // 3, y))` lies in [50, 240], is y itself inside that band, and is the nearer band edge outside it |
| `Nerve.PathOfValid` | sprites.py:213-236 | every path built from valid draws satisfies the path invariant `ValidNervePath`: starts at (50, 360), every later point has y in [50, 240], x steps of 30..80, stops at the first point at or past 1230, ends recorded |
| `Nerve.SegmentDistIsNearest` | sprites.py:244-262 | `SegmentDistSq`, the clamped-projection distance that models `get_distance_to_segment`, is ≤ the distance to every point a + s(b − a), 0 ≤ s ≤ 1, of the segment, the zero-length segment included |
| `Nerve.SegmentDistAttained` | sprites.py:253-262 | `SegmentDistSq` is the distance to some point of the segment with parameter in [0, 1] |
| `Nerve.DegenerateDistSq` | sprites.py:253-254 | for a zero-length segment `SegmentDistSq` is the distance to its one point, whatever the parameter |
| `Nerve.SegmentDistSymmetric` | sprites.py:244-262 | `SegmentDistSq` does not depend on the order of the segment's ends |
| `Nerve.SegmentDistZeroOnSegment` | sprites.py:244-262 | `SegmentDistSq` is 0 for a point lying on the segment |
| `Nerve.SegmentDistAtEnds` | sprites.py:253-262 | `SegmentDistSq` is 0 at either end of the segment |
| `Nerve.SegmentDistNonneg` | sprites.py:244-262 | `SegmentDistSq` is never negative |
| `Nerve.Deviation` | sprites.py:264-274 | infinite exactly when the path has fewer than 2 points; otherwise ≤ `SegmentDistSq` of every segment and equal to that of some segment |
| `Nerve.CheckDeviation` | sprites.py:264-274 | the for loop with its strict `dist < min_dist` running minimum, started at infinity, returns `Deviation(points, mouse)`; the path is passed as a value, so the query cannot change it |
| `Nerve.DeviationFiniteOnPath` | sprites.py:264-274 | on a generated path the deviation is a finite, non-negative distance |
| `Nerve.DeviationZeroOnVertex` | sprites.py:264-274 | a pointer on a vertex of the path has deviation 0 |
| `Ingredients.RandRange` | sprites.py:188 | a `randrange(lo, hi)` draw lies in [lo, hi) |
| `Ingredients.RandRangeCovers` | sprites.py:188-191 | every value of [lo, hi) can be drawn |
| `Ingredients.NewIngredient` | sprites.py:168-192 | the angle is in [0, 360] with 360 included; x is in [0, SCREEN_WIDTH − width); y is in [0, max(1, SCREEN_HEIGHT // 3 − height)); the creation time is the current tick |
| `Ingredients.SpawnOnScreen` | sprites.py:188-191 | an ingredient shorter than the top third lies wholly within the screen's width and above SCREEN_HEIGHT // 3 |
| `Ingredients.Alpha` | sprites.py:194-206 | the alpha is 50 or 255, and always 255 until the ingredient is older than INGREDIENT_WARNING_TIME |
| `Ingredients.DimExactlyInEvenWindows` | sprites.py:199-204 | past the warning time the alpha is 50 exactly when `(now // 200) % 2 == 0` |
| `Ingredients.BlinkAlternates` | sprites.py:199-204 | past the warning time the alpha flips every 200 ms |
| `Hands.StageState` | sprites.py:128-133 | stage 0 gives "normal", stage 1 "damaged", and every other stage "badly_damaged" |
| `Hands.RightHandAngle` | sprites.py:104 | the right-hand angle is clamped into [-30, 0], unchanged inside, nearest boundary outside |
| `Hands.LeftHandAngle` | sprites.py:117 | the left-hand angle is clamped into [0, 30], unchanged inside, nearest boundary outside |
| `Hands.ChefHand.constructor` | sprites.py:22-24 | a new hand shows the normal left hand and no knife pose |
| `Hands.ChefHand.SetHandStage` | sprites.py:121-135 | the left-hand picture becomes the stage's picture; the knife pose is unchanged; the hand is redrawn on every call |
| `Hands.ChefHand.SetAttack` | sprites.py:137-140 | the knife pose becomes the given value; it is redrawn exactly when the value differs from the old one |
| `Hands.ChefHand.Update` | sprites.py:90-119 | the angles handed to drawing are `RightHandAngle` and `LeftHandAngle` of the raw angles, in [-30, 0] and [0, 30] |
| `StateMachine.FirstClicked` | state_manager.py:30-34 | the scan with `break` finds the first ingredient in collection order whose rectangle contains the click, or none when no rectangle does |
| `StateMachine.RemoveAt` | state_manager.py:38 | `kill()` removes exactly that ingredient: one fewer, the others kept in order, the same multiset less the one removed |
| `StateMachine.StateManager.constructor` | state_manager.py:7-21 | a fresh manager is in PREP with sanity 100, score 0, no ingredients, spawn timer 0, spawn interval 2000, no nerve path and not deviated |
| `StateMachine.StateManager.ResetTrauma` | state_manager.py:23-25 | a fresh nerve path is installed and `deviated` is cleared; nothing else changes |
| `StateMachine.StateManager.HandleInput` | state_manager.py:27-44 | the fields after the event are `AfterInput` of the fields before it |
| `StateMachine.StateManager.Update` | state_manager.py:46-83 | the fields after the frame are `AfterUpdate` of the fields before it, for the given clock, pointer and draws |
| `StateMachine.ThresholdEntersTrauma` | state_manager.py:49-52 | in PREP with sanity ≤ 20, an update switches to TRAUMA, installs a new path, clears `deviated` and returns without spawning or touching ingredients, timer, sanity or score |
| `StateMachine.EntersTraumaIff` | state_manager.py:47-52 | from PREP, an update enters TRAUMA if and only if sanity ≤ 20 |
| `StateMachine.SpawnCadence` | state_manager.py:55-58 | in PREP with sanity > 20, one ingredient is appended and the spawn timer set to now exactly when `now − spawn_timer > 2000`; otherwise nothing changes |
| `StateMachine.ClickHit` | state_manager.py:30-38 | a PREP click whose first colliding ingredient is k adds 1 to the score and removes exactly ingredient k; every other field (sanity, phase, spawn timer, path, `deviated`) is unchanged |
| `StateMachine.ClickMiss` | state_manager.py:39-40 | a PREP click on no ingredient lowers sanity by exactly 15 and changes nothing else |
| `StateMachine.TraumaIgnoresInput` | state_manager.py:42-44 | in TRAUMA, `handle_input` changes nothing |
| `StateMachine.DeviationDrains` | state_manager.py:69-73 | in TRAUMA with deviation > 22, `deviated` is set, sanity drops by exactly 1, and the game stays in TRAUMA |
| `StateMachine.TraumaFrameIs` | state_manager.py:62-67 | with a path present, a TRAUMA update acts on the path's deviation from the current pointer position |
| `StateMachine.OnPathClearsDeviation` | state_manager.py:75-80 | in TRAUMA with deviation ≤ 22 and pointer x ≤ SCREEN_WIDTH − 100, `deviated` is cleared and nothing else changes |
| `StateMachine.ReachingEndReturnsToPrep` | state_manager.py:75-83 | in TRAUMA with deviation ≤ 22 and pointer x > SCREEN_WIDTH − 100, `deviated` is cleared, sanity becomes 50, the phase PREP and the ingredients empty; the score is unchanged |
| `StateMachine.ScoreStep` | state_manager.py:27-40 | one step leaves the score alone or adds 1, and adds 1 exactly on a PREP click that hits an ingredient |
| `StateMachine.ScoreNeverDecreases` | state_manager.py:10-37 | over any run of events and updates the score never decreases |
| `StateMachine.SanityStep` | state_manager.py:39-81 | one step leaves sanity alone, lowers it by 15 or by 1, or sets it to 50 on TRAUMA's return to PREP |
| `StateMachine.InitialInv` | state_manager.py:7-21 | a fresh manager satisfies the state invariant |
| `StateMachine.InvStep` | state_manager.py:46-83 | every step keeps the invariant: TRAUMA always has a nerve path, and every installed path satisfies `ValidNervePath`: it starts at (50, 360), later points lie in the band [50, 240], x steps by 30..80, it stops at the edge and its ends are recorded |
| `StateMachine.InvRun` | state_manager.py:23-83 | the invariant holds after any run of steps |
| `StateMachine.ReachableTraumaDeviationFinite` | state_manager.py:62-69 | in every TRAUMA state reachable from a fresh manager a path is present, and the deviation compared with the limit is finite |

## Left out

- main.py: the pygame event loop, window, frame clock and exit are I/O. Their effect is the sequence of `HandleInput` and `Update` calls that `Run` models.
- Rendering is not modelled:
  - `StateManager.draw`, `NervePath.draw`, `ChefHand.update_visuals` and its `blit_centered`;
  - the `font` field and all text;
  - surface fills, rotation, scaling and `set_alpha`.
  Only the alpha value chosen (`Alpha`) and the angles handed to drawing are modelled.
- The `Cursor` class only follows the mouse for drawing and is not modelled.
- Asset loading and its exception fallback (sprites.py:28-46, sprites.py:149-156) are file I/O.
- `ChefHand.Update` takes the raw angles as inputs. The `atan2`/`degrees` computation that produces them from the pointer is floating-point trigonometry and is not modelled.
- Nerve distances use exact rational arithmetic on squared values. The rounding of Python floats in the projection and in `math.hypot` is not modelled.
- `Nerve.GeneratePath`: the random stream is modelled as a finite sequence of at least 40 valid draws, enough for any run of the loop. What `random.randint` actually returns is not modelled.
- `Ingredients.NewIngredient`: the rotated image's size is an input, since pygame's rotation computes it. Its precondition `width < SCREEN_WIDTH` is where `randrange` would raise; a rotated 64-pixel square is never that wide.
- `Ingredients.NewIngredient`: the ingredient's creation time is the same clock reading as the spawn check, whereas the source reads the clock a second time.
- The `print` on deviation and the `ingredients.update()` call in PREP change only the console and the drawn alpha, so they leave the game state alone.
- `deviation_start_time` is set at construction and never used. It is kept as a constant field.
