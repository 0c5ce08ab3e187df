# Portfolio minigame and carousel, modelled in Dafny

This project models the two parts of a personal portfolio page's scripts that
hold real logic.

- **The jump-and-dodge minigame** (`game.dfy`, module `Minigame`). A red ball
  runs along a ground line. Gravity pulls it down each tick, and the landing
  clamp stops it on the ground. Space or a pointer press makes it jump, but
  never twice in the air. Obstacles spawn at the right edge every
  `max(60, floor(120 - speed * 6))` frames and scroll left by the current
  speed. An obstacle whose trailing edge passes the left border is spliced
  out and scored. A three-condition overlap test ends the game. Otherwise the
  speed grows by 0.005 per tick. The lifecycle has three phases.
  - Idle: not active, no overlay.
  - Running: active.
  - Ended: not active, game-over overlay shown.

  Space, pointer presses, Escape, the overlay's restart and exit buttons and
  window resizes move the game between them.
- **The slide carousel** (`carousel.dfy`, module `Carousel`). It folds any
  index into range with JavaScript's truncating `%` applied twice. It marks
  exactly one slide and one dot as active. Next and previous wrap around.
  It builds one dot per slide and pauses autoplay while the pointer hovers.
  `jsnum.dfy` (module `JsNumbers`) gives the JavaScript `%` and the NaN it
  yields for a zero divisor, and proves the folding formula equal to the
  Euclidean modulus.

Both scripts keep mutable state and change it step by step, so each is a
class.

- `Minigame.Game` has the module-level variables of `js/game.js` as fields.
  The player record is a `Player` value in a field; nothing else refers to
  it. The obstacle array is a `seq<Obstacle>` field.
- `Carousel.Slider` keeps slides and dots as arrays, updated in place.

Every state-changing method is specified by a pure function of the old
state. For the game this is `State() == AfterTick(old(State()), r)` and
its siblings. The properties the code promises are then proved as lemmas
about those functions. One invariant, `Inv`, holds for every state the game
can reach.

- A running player is on or above the ground.
- A running game shows no overlay.
- The speed is at least its starting value.
- Every obstacle has the standard width, a height in `[30, 90)` and its
  bottom on the ground line.

Inputs from the environment are parameters.

- `Math.random()` is `r`, with `0 <= r < 1`.
- `window.innerWidth` and `window.innerHeight` are `w` and `h` of the entry
  points that read them.
- The key of a keydown event is a `KeyCode` or `Key` value.

Numbers in the game are exact `real`s.

The model keeps these behaviours of the code.

- `update` takes no elapsed time. Each call is one tick, with no frame-rate
  scaling.
- The collision test never compares the player's top with an obstacle's
  bottom. `ThreeConditionsSuffice` proves that this comparison could never
  change the outcome, because of the invariant.
- A resize while not running changes nothing, not even the stored canvas
  size.
- Escape when not running always calls `exitGame`, whether the overlay is
  shown or not.
- The player's collision box is `[x, x + 30] × [y, y + 30]`. The ball is
  drawn as a circle of radius 30 centred on `(x, y)`, so this box is the
  ball's lower-right quarter, not its bounding box.

## Model

| member | source | states |
|---|---|---|
| `JsNumbers.TruncRem` | js/slider.js:20 | JavaScript `%` with a positive divisor: the result has the dividend's sign and is smaller than the divisor in magnitude. It equals the Euclidean remainder for a non-negative dividend, and that remainder minus the divisor (or 0) for a negative one. |
| `JsNumbers.Rem` | js/slider.js:20 | `x % n` is NaN exactly when `x` is NaN or `n` is 0. Otherwise it lies strictly between `-n` and `n`. |
| `JsNumbers.Add` | js/slider.js:30-31 | `index + 1` and `index - 1` keep NaN as NaN and otherwise add. |
| `JsNumbers.WrapIsEuclideanMod` | js/slider.js:20 | With at least one slide, `((i % total) + total) % total` equals the Euclidean `i mod total` and lies in `[0, total)`. With no slides, or from NaN, it is NaN. |
| `JsNumbers.WrapIdempotent` | js/slider.js:20 | Folding an already folded index changes nothing. |
| `JsNumbers.WrapInRange` | js/slider.js:20 | An index already in `[0, total)` is left unchanged. |
| `JsNumbers.NextWrapsToFirst` | js/slider.js:30 | `next` from the last slide lands on slide 0. |
| `JsNumbers.PrevWrapsToLast` | js/slider.js:31 | `prev` from slide 0 lands on the last slide. |
| `JsNumbers.PrevAfterNext` | js/slider.js:30-31 | From any slide, `next` and then `prev` return to it. |
| `Carousel.Slider.constructor` | js/slider.js:70-73 | On page load the dots are built and slide 0 is shown. The `Valid` invariant then holds: one slide and one dot are highlighted, dot `d` carries `data-i = d`, and the timer is armed exactly when autoplay is on. |
| `Carousel.Slider.BuildDots` | js/slider.js:33-45 | Without a dots container nothing changes. Otherwise the container is replaced by exactly `total` dots, where dot `d` carries index `d` and only dot 0 is active. |
| `Carousel.Slider.SetActive` | js/slider.js:19-28 | The index becomes the folded argument. Slide `s` is active iff `s` equals the index, and so is dot `d` when the container exists. The dots keep their indices. Calling it with the current index in a valid state changes nothing. |
| `Carousel.Slider.RestartAutoplay` | js/slider.js:47-51 | With autoplay on, the interval is armed afterwards. With autoplay off, nothing changes. |
| `Carousel.Slider.Next` | js/slider.js:30 | The index becomes the folded `index + 1`, and the invariant is kept. |
| `Carousel.Slider.Prev` | js/slider.js:31 | The index becomes the folded `index - 1`, and the invariant is kept. |
| `Carousel.Slider.ClickDot` | js/slider.js:42 | Clicking dot `d` shows slide `d`. |
| `Carousel.Slider.TimerFires` | js/slider.js:50 | An autoplay tick advances to the folded `index + 1`, and the interval stays armed. |
| `Carousel.Slider.MouseEnter` | js/slider.js:58 | Hovering turns autoplay off and disarms the timer. |
| `Carousel.Slider.MouseLeave` | js/slider.js:59 | Leaving turns autoplay on and re-arms the timer. |
| `Carousel.Slider.KeyDown` | js/slider.js:62-65 | The left arrow steps back and the right arrow steps forward. Any other key changes nothing. |
| `Minigame.Fall` | js/game.js:121-129 | After gravity and the landing clamp the player is never below the resting height, and `x` does not change. When the clamp fires, `vy` becomes 0 and `jumping` becomes false. Otherwise velocity grows by the gravity constant, position grows by the new velocity, and `jumping` is kept. |
| `Minigame.RestingPlayerStaysGrounded` | js/game.js:121-129 | A player at rest on the ground stays there, at rest. |
| `Minigame.FallingIsMonotone` | js/game.js:121-122 | Without a jump the player's `y` never decreases, and its velocity stays non-negative. |
| `Minigame.Jump` | js/game.js:211-214 | An airborne player is left exactly as it was (no double jump). A grounded one gets `vy = -12` and `jumping = true` at the same position. |
| `Minigame.JumpLifts` | js/game.js:211-214 | A jump from the ground raises the player on the next tick. |
| `Minigame.SpawnGap` | js/game.js:132 | The spawn gap is `max(60, floor(120 - speed * 6))`: at least 60, at least the floor, and either 60 or at most `120 - speed * 6`. From the starting speed on it is at most 90. |
| `Minigame.SpawnGapShrinks` | js/game.js:132 | A higher speed never gives a longer gap. |
| `Minigame.NewObstacle` | js/game.js:53-62 | A spawned obstacle starts 10 past the canvas's right edge. It has the standard width and a height in `[30, 90)`, and its bottom is on the ground line. |
| `Minigame.Moved` | js/game.js:138 | Every obstacle's `x` decreases by exactly the speed, and the length and order stay the same. |
| `Minigame.Visible` | js/game.js:139-142 | The kept obstacles are all on screen, and there are no more of them than before. |
| `Minigame.VisibleMembers` | js/game.js:139-142 | An obstacle is kept iff it was in the list and is on screen. |
| `Minigame.VisibleAndOffscreenPartition` | js/game.js:139-141 | Kept plus culled equals the list's length, so each obstacle is either kept or counted once. |
| `Minigame.PassSpec` | js/game.js:137-143 | After the pass, an obstacle is present iff it is an input obstacle moved left by the speed that is still on screen. Survivors plus points scored equal the number of input obstacles. |
| `Minigame.PassKeepsGrounded` | js/game.js:137-143 | The pass changes only positions, so obstacles stay well-formed and on the ground. |
| `Minigame.PassStep` | js/game.js:137-143 | One iteration of the backward splice loop: the suffix it has processed is the pass of that suffix. Its score is the number of that suffix's obstacles culled. |
| `Minigame.ThreeConditionsSuffice` | js/game.js:64-73 | For a player on or above the ground and an obstacle on the ground, the three-condition test agrees with the four-sided overlap of the tested box `[x, x + 30] × [y, y + 30]` (the lower-right quarter of the drawn ball) with the obstacle's rectangle. |
| `Minigame.TickKeepsInv` | js/game.js:115-158 | `update` preserves the game invariant. |
| `Minigame.EntryPointsKeepInv` | js/game.js:161-240 | `initGame`, `startGame`, `endGame`, `exitGame`, the key and pointer handlers and the resize handler preserve the game invariant. |
| `Minigame.TickGroundClamp` | js/game.js:121-129 | At the end of every running tick the player is on or above the ground. On a landing tick `vy` is 0 and `jumping` is false. |
| `Minigame.TickWhileInactive` | js/game.js:116 | `update` while inactive changes no state. |
| `Minigame.TickScoresCulled` | js/game.js:137-143 | The score grows by exactly the number of obstacles culled, so it never decreases. Obstacles left plus points gained equal the obstacles before the tick plus the one spawned, if any. |
| `Minigame.TickSpeedRamp` | js/game.js:146-152 | A colliding tick ends the game (phase Ended) and keeps the speed. Any other running tick stays Running and adds exactly 0.005, so the speed never decreases. |
| `Minigame.NoDoubleJump` | js/game.js:208-214 | A jump input while running and airborne changes nothing. While not running it is `startGame`. |
| `Minigame.StartIdempotent` | js/game.js:161-163 | `startGame` while running is a no-op, so a second start leaves the first one's effect unchanged. |
| `Minigame.StartResets` | js/game.js:36-46 | Starting a stopped game gives phase Running, score 0, speed 5, frame 0 and no obstacles. The player is grounded at rest on the new ground line, 120 above the bottom. |
| `Minigame.EndAndExit` | js/game.js:172-204 | `endGame` keeps the score and shows the overlay (phase Ended). `exitGame` clears score and obstacles (phase Idle), and doing it twice is the same as once. |
| `Minigame.EscapeTransitions` | js/game.js:215-223 | Escape ends a running game and keeps its score. From any other phase it leads to Idle. |
| `Minigame.ResizeTransitions` | js/game.js:238-240 | A resize while running re-initialises the game and leaves it active. Otherwise it changes nothing. |
| `Minigame.Game.constructor` | js/game.js:24-33 | The script starts Idle, with score 0, speed 5, frame 0, no obstacles and the player at `x = 80` at rest. |
| `Minigame.Game.InitGame` | js/game.js:36-50 | The new state is `AfterInit` of the old one. |
| `Minigame.Game.GenerateObstacle` | js/game.js:53-62 | Exactly one obstacle, `NewObstacle(canvas.width, groundY, r)`, is appended, and nothing else changes. |
| `Minigame.Game.CheckCollision` | js/game.js:64-73 | The result is true iff some obstacle meets all three conditions. In particular it is false when there are no obstacles. |
| `Minigame.Game.MoveObstacles` | js/game.js:137-143 | The backward splice loop leaves `Pass(obstacles, speed)`, adds `Culled(obstacles, speed)` to the score, and changes nothing else. |
| `Minigame.Game.Update` | js/game.js:115-158 | The new state is `AfterTick` of the old state and `r`, and the invariant is kept. |
| `Minigame.Game.StartGame` | js/game.js:161-170 | The new state is `AfterStart` (a no-op while running), and the invariant is kept. |
| `Minigame.Game.EndGame` | js/game.js:172-192 | Only the active flag (now off) and the overlay (now shown) change. |
| `Minigame.Game.ExitGame` | js/game.js:194-204 | The new state is `AfterExit`, and the invariant is kept. |
| `Minigame.Game.JumpOrStart` | js/game.js:210-214 | The shared reaction of Space and pointer presses is `AfterJumpInput`. |
| `Minigame.Game.HandleKey` | js/game.js:207-224 | Space is `AfterJumpInput`, Escape is `AfterEscape`, and other keys change nothing. |
| `Minigame.Game.PointerDown` | js/game.js:228-235 | A pointer press is `AfterJumpInput`. |
| `Minigame.Game.Resize` | js/game.js:238-240 | The new state is `AfterResize` (re-initialise only while running), and the invariant is kept. |

## Left out

- Drawing: `draw`, the overlay's HTML, the colours and the eyes. The model
  keeps only whether the overlay and the canvas are displayed.
- Scheduling: `requestAnimationFrame` and `cancelAnimationFrame`. `Update`
  may be called at any time. A call while inactive is a no-op, which covers
  stale frames.
- Canvas focus and `pointerEvents`, `preventDefault`, and the registration
  of event listeners.
- The restart and exit buttons' listeners. They only call `StartGame` and
  `ExitGame`, which are modelled.
- The page's styling. The overlay and the canvas are taken to start hidden.
  Before the first `initGame` the ground line is 0 and the canvas has the
  HTML default size. Neither value is read before `initGame` replaces it.
- A page without the game canvas or the slider. The scripts then return at
  once, and the model assumes both elements exist.
- IEEE double arithmetic. The game uses exact rationals, so the accumulated
  `gameSpeed += 0.005` has no rounding. The floor in the spawn gap may
  therefore switch at a slightly different frame than in a browser. The
  bound `height < 90` in `NewObstacle`, `Grounded` and `Inv` also holds only
  for exact reals. In doubles, `30 + r * 60` rounds to exactly 90 for
  `r = 1 - 2^-53`, which engines with a 53-bit `Math.random` can return.
- JavaScript numbers beyond 2^53 for the carousel index. Integers are
  unbounded here.
- `Carousel.Slider.RestartAutoplay`: the timer is only an "armed" flag. That
  clearing and re-setting the interval restarts its 4500 ms countdown is not
  modelled.
- Dot attributes other than `active` and `data-i` (class name, `type`,
  `aria-label`). The resize listener of `js/slider.js` does nothing.
- `js/background.js`, `js/app.js`, `js/code-editor.js`, `js/codeblock.js`,
  `js/projects.js` and `js/no-copy.js`. They hold decorative floating-point
  animation and DOM, clipboard and highlighting glue; none of them is part
  of this model.
