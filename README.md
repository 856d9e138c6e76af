# Snake simulation engine in Dafny

A model of the simulation core of a Java snake game. `GameController` keeps a
snake (a list of grid cells, head first), a heading, a pending-growth flag, a
score, a one-key-per-tick latch and an apple, and advances them once per tick.
Each tick moves the snake, lets it eat the apple (score, growth flag, new
apple), resets it on collision, and releases the key latch. Beside it sit the
compass enum `Direction` with its `next`/`previous` rotations, and `Path`, a
grid cursor that the game does not use.

Modules:

- `Wrappers`: `Option`, which stands for a Java reference that may be null
  and for a lookup that throws.
- `Directions`: `Direction.java`. The controller's private nested enum has the
  same four constants in the same order, so one datatype serves both. Java's
  truncating `%` is written out (`JavaRemByCount`), and `previous` returns
  `None` where Java indexes the array at -1 and throws. `Turned` is the
  reversal rule that `keyPressed` and `changeDirection` both spell out case by
  case.
- `Geometry`: `Coordinates` (both `Coordinates.java` and the controller's
  two-element `Integer[]` cells), translation, and one-unit steps along a
  heading. The y axis grows downward, so NORTH is y - 1.
- `SnakeGame`: class `GameController`, whose fields are the Java fields. The
  body is a `seq` that the methods reassign. `moveSnake` keeps its tail-to-head
  shifting loop. Each method is proved against the specification functions
  `InitialSnake`, `Moved` and `Collided`. `Valid()` is the class invariant:
  positive dimensions, at least five cells, a non-negative score and an apple
  on the grid.
- `Paths`: class `Path`, whose heading is `None` until it is first set.

Quirks of the code that the model keeps:

- `createApple` may place the apple under the snake
  (`AppleMayLandOnSnake`).
- The bounds test uses `>`, so column `gridWidth` and row `gridHeight`, one
  past the drawn grid, are not fatal (`FarColumnNotFatal`).
- A reset rebuilds the body and zeroes the score but leaves the heading, the
  growth flag and the apple as they were, so a snake that dies facing EAST
  collides again on its next move (`ResetFacingEastCollidesAgain`).
- The controller has no pause or automatic-mode state.
- `previous` of NORTH throws, so `next` and `previous` are inverse only
  where both are defined.

## Model

| member | source | states |
|---|---|---|
| Directions.Ordinal | src/snake/Direction.java:8-10 | the ordinal is the constant's position in `values()` |
| Directions.JavaRemByCount | src/snake/Direction.java:16-26 | Java's `% values.length`: equals Euclidean `% 4` for a non-negative dividend; for a negative one it is 0 when 4 divides it and otherwise the Euclidean remainder minus 4 (so -1 gives -1) |
| Directions.Next | src/snake/Direction.java:16-18 | `next` advances the ordinal by one modulo 4 |
| Directions.Previous | src/snake/Direction.java:24-26 | `previous` fails (index -1) exactly for NORTH, and otherwise lowers the ordinal by one |
| Directions.Opposite | src/snake/GameController.java:155-166 | the rejected reversal of a heading is two rotation steps away |
| Directions.Turned | src/snake/GameController.java:155-166 | a turn gives the current or the requested heading, gives the requested one iff it is not the exact reversal, and never gives the reversal of the current heading |
| Directions.NextTable | src/snake/Direction.java:16-18 | `next` maps NORTH to EAST to SOUTH to WEST to NORTH |
| Directions.PreviousTable | src/snake/Direction.java:24-26 | `previous` maps EAST to NORTH, SOUTH to EAST, WEST to SOUTH, and fails on NORTH |
| Directions.NextNOrdinal | src/snake/Direction.java:16-18 | k calls of `next` advance the ordinal by k modulo 4 |
| Directions.NextFourTimes | src/snake/Direction.java:16-18 | four calls of `next` return the original direction |
| Directions.NextPreviousInverse | src/snake/Direction.java:16-26 | `previous(next(d)) == d` for d other than WEST, and `next(previous(d)) == d` for d other than NORTH |
| Directions.OppositeIsTwoSteps | src/snake/Direction.java:16-18 | the reversal is `next` twice; reversing twice is the identity and never a fixed point |
| Geometry.AdvanceIsUnitStep | src/snake/GameController.java:98-112 | a head step changes exactly one coordinate by exactly one |
| Geometry.RetreatUndoesAdvance | src/snake/Path.java:41-73 | stepping back undoes stepping forward and vice versa; a backward step is a forward step in the opposite direction |
| SnakeGame.InitialSnake | src/snake/GameController.java:45-52 | for positive dimensions: five distinct cells, head at (gridWidth/2, gridHeight/2), each further cell one unit east of the previous |
| SnakeGame.Moved | src/snake/GameController.java:90-119 | one move keeps the length (or adds one when growing), puts old cell i-1 at i, steps the head one unit along the heading, and when growing ends with the old tail |
| SnakeGame.Contains | src/snake/GameController.java:81-83 | true iff some cell of the list equals the given one |
| SnakeGame.GameController.constructor | src/snake/GameController.java:24-43 | a new controller holds the five-cell initial body, faces WEST, has score 0, no pending growth, no key latched, an apple on the grid, and satisfies the invariant |
| SnakeGame.GameController.CreateSnake | src/snake/GameController.java:45-52 | appends exactly the initial layout to the body and changes nothing else |
| SnakeGame.GameController.KillSnake | src/snake/GameController.java:54-56 | empties the body and changes nothing else |
| SnakeGame.GameController.AddSnakeCell | src/snake/GameController.java:58-60 | appends one cell at the tail and changes nothing else |
| SnakeGame.GameController.CreateApple | src/snake/GameController.java:62-65 | the new apple is some cell of `[0, gridWidth) x [0, gridHeight)`, with no check against the snake |
| SnakeGame.GameController.MoveSnake | src/snake/GameController.java:90-119 | the shifting loop leaves the body equal to `Moved` of the old body, heading and growth flag; the growth flag ends cleared; the invariant is kept |
| SnakeGame.GameController.HasEatenApple | src/snake/GameController.java:121-123 | true iff the head and the apple agree in both coordinates |
| SnakeGame.GameController.HasCollided | src/snake/GameController.java:125-132 | true iff the head equals a cell at index 1 or more, or x < 0, x > gridWidth, y < 0 or y > gridHeight |
| SnakeGame.GameController.Tick | src/snake/GameController.java:134-148 | after a move: eating sets the growth flag and a new in-grid apple, otherwise the apple stays; with no collision the body is the moved body and the score rises by one iff eaten; on collision the body is the fresh layout and the score 0, with heading, growth flag and apple as left by the move and the apple check; the latch is released; length at least 5 and score non-negative are kept |
| SnakeGame.GameController.KeyPressed | src/snake/GameController.java:150-170 | with the latch already set nothing changes; otherwise an arrow key turns by the reversal rule and any other key keeps the heading; the latch ends set; the heading never becomes the reversal of the previous one |
| SnakeGame.ResetFacingEastCollidesAgain | src/snake/GameController.java:141-145 | on a grid of positive size, a fresh body moved EAST collides with itself |
| SnakeGame.InitialSnakeNotCollided | src/snake/GameController.java:125-132 | a fresh body on a grid of positive size is not in collision |
| SnakeGame.FarColumnNotFatal | src/snake/GameController.java:131 | a head in column gridWidth, with no other cell under it, is off the drawn grid yet not a collision |
| SnakeGame.AppleMayLandOnSnake | src/snake/GameController.java:62-65 | for every body whose head is on the grid, some grid cell (any of which `createApple` may draw) is a cell of the body |
| Paths.Path.constructor | src/snake/Path.java:12-18 | a new path has the given position, no heading and no recorded headings |
| Paths.Path.GetPos | src/snake/Path.java:20-22 | returns the current position |
| Paths.Path.ChangeDirection | src/snake/Path.java:24-39 | with no heading set any request is taken; afterwards an exact reversal is ignored and any other request is taken |
| Paths.Path.MoveForward | src/snake/Path.java:41-56 | the position moves one unit along the heading |
| Paths.Path.MoveBack | src/snake/Path.java:58-73 | the position moves one unit against the heading |
| Paths.Path.AddDirection | src/snake/Path.java:75-77 | appends the current heading, possibly unset, leaving earlier entries as they were |
| Paths.Path.GetPath | src/snake/Path.java:79-81 | returns the entry at the index, the one the index-th `addDirection` appended |
| Paths.ForwardThenBack | src/snake/Path.java:41-73 | `moveBack` right after `moveForward` restores the position, heading and record |
| Paths.BackThenForward | src/snake/Path.java:41-73 | `moveForward` right after `moveBack` restores the position, heading and record |

## Left out

- Drawing (`drawGame`, `drawCell`, the `GraphicsContext` and `cellSize`): rendering only.
- `Main.java` and `Snake.java`: the JavaFX window, labels and the `AnimationTimer` that calls `tick`. They call methods (`handleKeyPressed`, `getScore`, `isPaused`, `isAuto`) that `GameController.java` does not define, so no pause or automatic mode is modelled.
- `java.util.Random`: `createApple` is a nondeterministic choice of a grid cell, not a random generator.
- `KeyEvent` and `consume()`: replaced by the `Key` datatype; consuming the event has no effect on the game state.
- Java `int` overflow of coordinates and score: integers are unbounded.
- SnakeGame.GameController.MoveSnake: requires the class invariant. The value model is exact only for bodies of two or more cells. With one cell, Java's saved tail and the mutated head are the same array, so growth would append the new head. The invariant guarantees at least five cells.
- SnakeGame.GameController.constructor: requires positive dimensions. Java's constructor accepts any ints and then throws IllegalArgumentException from `Random.nextInt` in `createApple` when a dimension is not positive; the exception is not modelled.
- SnakeGame.GameController.CreateSnake: requires positive dimensions, which every constructed controller has; with other dimensions Java's truncating `/` and Dafny's Euclidean `/` would differ. `InitialSnake` and `ResetFacingEastCollidesAgain` carry the same requirement.
- Paths.Path.constructor: a null `startPos` is not modelled (positions are values), nor is the NullPointerException that `changeDirection` throws when switching on a null `dir`.
- Paths.Path.MoveForward: requires a heading to be set. Java throws a NullPointerException otherwise; the exception is not modelled. The same holds for `MoveBack`.
- Paths.Path.GetPath: requires the index to be in range. Java throws IndexOutOfBoundsException otherwise; the exception is not modelled.
