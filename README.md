# Breakout game core

A model of the game-state core of `coba.py`, a tkinter breakout game. The ball
bounces off the walls, the paddle and a grid of 24 bricks. A brick disappears
after as many hits as it started with. The player starts with three lives and
loses on the fourth lost ball: the lives go 3, 2, 1, 0 and then -1, which ends
the game. Every tick in which the ball hits a brick is worth 10 points.

The model is imperative, like the source:

- `Ball`, `Paddle`, `Brick` and `Game` are classes with the source's fields.
- Their methods update those fields in place.
- Each method is proved against a value-level specification function: wall
  bounce, deflection, clamped paddle move and brick hit.

The project has four modules:

- `Geometry` (`geometry.dfy`): canvas rectangles and translation.
- `Physics` (`physics.dfy`): the movement rules as pure functions.
  `WallBounce` is the reflection in `Ball.update`. `Deflect` is the direction
  rule in `Ball.collide`. `PaddleMove` is the clamped paddle move.
- `Objects` (`objects.dfy`): the `Ball`, `Paddle` and `Brick` classes.
  - The brick counter is also stated as a value (`BrickState`, `HitOnce`,
    `HitTimes`).
  - `Lookup` turns the overlapping canvas ids into the object list that
    `Ball.collide` gets.
- `Breakout` (`breakout.dfy`): the `Game` class, holding lives, score, the item
  table by canvas id, the ball, the paddle, the hearts and the phase of the
  game.

The tkinter canvas supplies several things the model takes as given:

- Canvas ids follow tkinter's numbering in creation order. The paddle is item 1
  and the bricks are items 2..25, column by column.
- `find_overlapping` becomes an input list of ids.
  - `Game.Overlapping` states what it guarantees: deleted shapes are never
    reported.
- `find_withtag('brick')` is `LiveIds`: the bricks whose shape is still on the
  canvas.

The `after(...)` timers and the key bindings are modelled as follows:

- The `Phase` field records which callback is pending: `Setup` (space bound),
  `Running`, `Respawning`, `Won` or `Over`.
- A tick returns a `Step`: `Continue`, `Respawn`, `Win` or `GameOver`.

`Game.Valid` is the invariant every public method keeps:

- The ball keeps a direction in {-1, +1}².
- The paddle stays inside `[0, 610]` at its row.
- The item table holds the paddle at id 1 and a brick at every id 2..25.
- Every brick keeps a counter in 0..3 and is on the canvas exactly while the
  counter is positive.
- Lives stay in -1..3, and heart `i` is shown exactly when `i < lives`.
- The score is a non-negative multiple of 10.
- Each phase fixes whether the paddle carries the ball, whether the ball moves,
  and the range of the lives. The phase is `Won` exactly when no brick is left.

Three behaviours of the code are easy to misread; the model follows the code:

- `Ball.collide` applies the paddle-edge rule to any single overlapping object,
  a brick included, not only to the paddle (coba.py:49-57).
- The score grows by 10 on every tick in which a brick is hit, whether it is
  destroyed or only loses a hit (coba.py:212-213).
- The score is updated inside `check_collisions`, before the win check, not
  after the ball advances.

## Model

| member | source | states |
|---|---|---|
| Geometry.Translate | coba.py:13-14 | moving a shape keeps its width and height |
| Physics.WallBounce | coba.py:34-39 | the horizontal component is negated exactly when `left <= 0` or `right >= width`, once even if both hold; the vertical component is negated exactly when `top <= 0`; the result is still a direction in {-1, +1}² |
| Physics.WallCues | coba.py:34-39 | the bounce cue plays at most twice, and not at all exactly when no wall is touched |
| Physics.Deflect | coba.py:46-57 | with no object the direction is unchanged; with several objects the vertical component is negated and the horizontal one kept; with one object of span `[l, r]`, a centre strictly right of `r` gives horizontal +1, one strictly left of `l` gives -1, and otherwise the vertical component is negated; the result is a direction |
| Physics.PaddleMove | coba.py:82-88 | the paddle moves by the offset exactly when both edges stay inside `[0, width]`, and otherwise stays put; it moves only horizontally, so a paddle inside the field stays inside |
| Objects.HitOnce | coba.py:105-111 | a hit decrements the counter; the shape leaves the canvas exactly when the counter reaches 0, and otherwise takes the colour `COLORS[hits]` |
| Objects.RemovedAfterExactlyHits | coba.py:92-111 | a brick built with `h` in {1, 2, 3} hits is still on the canvas after `k < h` hits, showing `COLORS[h - k]`, and is gone after exactly `h` hits |
| Objects.HitTimesFrom | coba.py:105-111 | the same, for any live brick whose colour matches its counter |
| Objects.Ball.constructor | coba.py:21-29 | a ball of radius 10 centred on `(x, y)`, direction `[1, -1]`, speed 5 |
| Objects.Ball.Move | coba.py:13-14 | the ball is translated; direction, speed and cue count are unchanged |
| Objects.Ball.Update | coba.py:31-42 | the new direction is `WallBounce` of the old position and direction; the ball moves by `direction * speed` with the new direction; one cue per wall touched |
| Objects.Ball.Collide | coba.py:44-64 | the new direction is `Deflect` of the overlap count and the first object's span; the result is true exactly when the list holds a brick; then only the first brick in list order is hit (state `HitOnce` of its old state), with one cue; the position and speed are unchanged |
| Objects.Ball.TurnAway | coba.py:45-57 | the direction part of `collide`: the new direction is `Deflect` of the old one |
| Objects.Ball.HitFirstBrick | coba.py:59-64 | the loop of `collide`: true exactly when some object is a brick; the first brick, and only it, takes one hit |
| Objects.Paddle.constructor | coba.py:68-77 | an 80 × 10 paddle centred on `(x, y)`, carrying no ball |
| Objects.Paddle.SetBall | coba.py:79-80 | the paddle carries the given ball; its position is unchanged |
| Objects.Paddle.Move | coba.py:82-88 | the paddle ends at `PaddleMove` of its old position; a carried ball moves by the same horizontal offset and nothing else about it changes |
| Objects.Brick.constructor | coba.py:94-103 | a 75 × 20 brick starting at the given left edge, with the given counter and colour, on the canvas |
| Objects.Brick.Hit | coba.py:105-111 | the brick's state becomes `HitOnce` of its old state; its position is unchanged |
| Objects.FirstBrick | coba.py:59-63 | the index of the first brick in list order: a brick, with no brick before it, and none exactly when the list holds no brick |
| Objects.Lookup | coba.py:211 | the object list is no longer than the id list and starts with the first id's object when that id is in the table |
| Objects.LookupAppend | coba.py:211 | the comprehension keeps the order of the ids: the objects of `a + b` are those of `a` followed by those of `b` |
| Objects.LookupCount | coba.py:211 | the list has one object per id found in the table, which is the count `collide` tests against 1 |
| Objects.LookupRank | coba.py:211 | the entry of a known id sits in the list right after the objects of the ids before it |
| Objects.LookupSource | coba.py:211 | every object in the list is the table entry of one of the overlapping ids |
| Objects.LookupFindsBrick | coba.py:211-212 | `collide` reports a brick exactly when some overlapping id belongs to a brick in the table |
| Breakout.Decide | coba.py:191-206 | the tick result: a win exactly when no brick is left, whatever the ball does; otherwise continue exactly when the ball's bottom is above the height, respawn when it is not and a life remains, and game over when it is not and no life remains |
| Breakout.StartGridLive | coba.py:131-134 | the starting grid puts exactly 24 bricks, the ids 2..25, on the canvas |
| Breakout.CollideReady | coba.py:210-212 | every brick handed to `collide` may be hit, and the brick it hits belongs to the table |
| Breakout.BricksStaySound | coba.py:208-214 | when a collision hits only the first brick, once, every brick of the table keeps a counter in 0..3 that matches its place on the canvas |
| Breakout.Game.constructor | coba.py:114-146 | the game starts valid in the setup phase: 3 lives, score 0, three hearts, the paddle at 265..345 × 321..331 carrying the ball at 295..315 × 300..320 heading `[1, -1]`, and the grid brick `(c, r)` at `BrickArea(c, r)` with `3 - r` hits and the colour `COLORS[3 - r]`, 24 bricks live; the paddle, the ball and every brick are new objects, so a caller may go on to play the game |
| Breakout.Game.AddBricks | coba.py:131-134 | the loop over `range(5, 605, 75)` fills ids 2..25 with the grid, each brick sound and placed, all of them new objects |
| Breakout.Game.AddColumn | coba.py:132-134 | one column: three new bricks of 3, 2 and 1 hits at the column's place under the next three ids, all earlier bricks unchanged and the added ones new objects |
| Breakout.Game.AddBrick | coba.py:162-164 | a new brick with the given place, counter and colour is entered under its canvas id, and nothing else in the table changes |
| Breakout.Game.AddBall | coba.py:154-160 | a new ball centred over the paddle at height 310, heading `[1, -1]`, carried by the paddle |
| Breakout.Game.SetupGame | coba.py:148-152 | from the respawn wait, the game returns to the setup phase with a fresh ball over the paddle; its bounce count starts at 0; lives, score, hearts and table are unchanged |
| Breakout.Game.PressLeft | coba.py:143-144 | the paddle moves 10 to the left when it fits; a carried ball moves by the same horizontal offset, an uncarried one stays put; the ball keeps its direction, speed and cue count, the carried-ball link is unchanged, and the game stays valid |
| Breakout.Game.PressRight | coba.py:145-146 | the paddle moves 10 to the right when it fits; a carried ball moves by the same horizontal offset, an uncarried one stays put; the ball keeps its direction, speed and cue count, the carried-ball link is unchanged, and the game stays valid |
| Breakout.Game.CheckCollisions | coba.py:208-214 | the ball takes the `Deflect` direction; the score grows by 10 exactly when a brick is among the overlapping items, and so does the bounce count, by one; only the first such brick changes, by one hit, and it stays in place; the game stays well formed |
| Breakout.Game.GameLoop | coba.py:189-206 | one tick: the score grows by 10 only on a brick hit; only the first overlapping brick changes, by one hit, and it stays in place; the bounce count grows by one for a brick hit and, for a continuing ball, by one per wall touched; the result is `Decide` of the live bricks, the ball's bottom and the lives; the phase follows the result; a lost ball costs one life; a respawn removes heart `lives`, which lies in 0..2; a continuing ball takes the direction `WallBounce` of `Deflect` and advances by it times 5; otherwise the ball stops where it is with the `Deflect` direction |
| Breakout.Game.FinishTick | coba.py:191-206 | the part of the tick after the collisions: the same result, phase, lives and hearts; a continuing ball takes the `WallBounce` direction, advances and counts one bounce per wall touched; otherwise the ball keeps its direction, position and bounce count and stops |
| Breakout.Game.StartGame | coba.py:183-187 | the space key releases the ball and runs the first tick; since the ball starts above the paddle, that tick either continues or wins, and costs no life or heart; the phase, score, ball direction, position and bounce count, and brick changes are those of `GameLoop` |

## Left out

- Rendering: the canvas window, `draw_text`, the HUD text (`update_hud`), the heart icons and the game-over screen with its button (coba.py:166-181, 216-227). Hearts are kept only as three shown/removed flags.
- `quit_game` and the program entry point (coba.py:229-245): window and process handling.
- Sound: pygame playback is not modelled. The bounce cue is only counted, in `Ball.bounces`. The win and lose sounds are not modelled at all.
- Timers and key bindings: `after`, `bind` and `unbind` become the `Phase` field and explicit method calls. The 50 ms and 1000 ms delays are recorded as constants only.
- tkinter hit-testing: `find_overlapping` is an input list of ids. `find_withtag('brick')` is the set of bricks still on the canvas.
- `winfo_width()` is the fixed width 610 from the constructor.
- `add_ball` deletes the old ball's shape. The model simply replaces the ball object.
- The game-level invariant does not track brick colours. `Game.constructor` states the starting colours, and `Brick.Hit` states each colour change.
- Objects.Brick.Hit, Objects.HitOnce and Objects.HitTimes: `Brick.Hit` and `HitOnce` require a counter whose decrement is 0 or a key of `COLORS`, and `HitTimes` requires a counter of at most 4 and no more hits than it holds. On any other counter the source raises a `KeyError`, which the model does not represent. The game never builds such a brick.
- The model does not bound the total score (at most 480, one hit per brick counter). That bound needs the sum of the counters as an invariant, which is too costly to verify here.
- Brick positions use the left edge, not the fractional centre `x + 37.5`, so that every coordinate is an integer. The rectangles are the same.
