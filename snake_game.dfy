/** The simulation engine of `GameController.java`: the snake body, the
    apple, the score, the heading and the one-key-per-tick latch, advanced
    once per tick. Drawing is not modelled. */
module SnakeGame {
  import opened Wrappers
  import opened Directions
  import opened Geometry

  /** The key codes `keyPressed` distinguishes; every other key is `Other`. */
  datatype Key = Up | Right | Down | Left | Other

  /** The heading an arrow key asks for; `None` for any other key. */
  function Requested(k: Key): (r: Option<Direction>)
  {
    match k
    case Up => Some(North)
    case Right => Some(East)
    case Down => Some(South)
    case Left => Some(West)
    case Other => None
  }

  /** The number of cells `createSnake` lays out. */
  const InitialLength: nat := 5

  /** The body `createSnake` lays out: the head at the grid's centre and the
      other cells in a straight line trailing east of it, behind a head that
      faces WEST. The dimensions are positive, as in every controller (see
      `GameController.Valid`), where Dafny's `/` agrees with Java's. */
  function InitialSnake(gridWidth: int, gridHeight: int): (s: seq<Coordinates>)
    requires gridWidth > 0 && gridHeight > 0
    ensures |s| == InitialLength
    ensures s[0] == Coordinates(gridWidth / 2, gridHeight / 2)
    ensures forall i :: 1 <= i < |s| ==> s[i] == Advance(s[i - 1], East)
    ensures forall i, j :: 0 <= i < j < |s| ==> s[i] != s[j]
  {
    seq(InitialLength, i => Coordinates(gridWidth / 2 + i, gridHeight / 2))
  }

  /** The body after one `moveSnake` with heading `d`: every cell takes its
      predecessor's place, the head steps one unit along `d`, and when
      growth is pending the tail cell from before the move is kept at the
      end. */
  function Moved(s: seq<Coordinates>, d: Direction, grow: bool): (r: seq<Coordinates>)
    requires |s| >= 1
    ensures |r| == if grow then |s| + 1 else |s|
    ensures r[0] == Advance(s[0], d)
    ensures forall i :: 1 <= i < |s| ==> r[i] == s[i - 1]
    ensures grow ==> r[|s|] == s[|s| - 1]
  {
    [Advance(s[0], d)] + s[..|s| - 1] + (if grow then [s[|s| - 1]] else [])
  }

  /** The collision test of `hasCollided`: the head lies on another cell of
      the body, or beyond the bounds. The bounds test uses a strict `>`, so
      column `gridWidth` and row `gridHeight`, one past the drawn grid, are
      not fatal. */
  predicate Collided(s: seq<Coordinates>, gridWidth: int, gridHeight: int)
    requires |s| >= 1
  {
    (exists i :: 1 <= i < |s| && s[i] == s[0]) ||
    s[0].x < 0 || s[0].x > gridWidth || s[0].y < 0 || s[0].y > gridHeight
  }

  /** `contains`: some cell of the list equals `c`, scanned from the front
      as `anyMatch` does. */
  function Contains(cells: seq<Coordinates>, c: Coordinates): (r: bool)
    ensures r <==> exists i :: 0 <= i < |cells| && cells[i] == c
  {
    if cells == [] then false else cells[0] == c || Contains(cells[1..], c)
  }

  class GameController {
    const gridWidth: int
    const gridHeight: int

    var score: int
    var shouldGrow: bool
    var keyPressedThisTick: bool
    /** The body, head at index 0. */
    var snake: seq<Coordinates>
    var apple: Coordinates
    var direction: Direction

    /** Positive dimensions (`Random.nextInt` rejects any other bound), a
        body of at least five cells, a non-negative score and an apple on
        the drawn grid. */
    ghost predicate Valid()
      reads this
    {
      && gridWidth > 0 && gridHeight > 0
      && |snake| >= InitialLength
      && score >= 0
      && InGrid(apple, gridWidth, gridHeight)
    }

    /** The constructor without its drawing: a fresh five-cell body facing
        WEST, score zero, nothing pending, and a random apple on the grid. */
    constructor (gridWidth: int, gridHeight: int)
      requires gridWidth > 0 && gridHeight > 0
      ensures Valid()
      ensures this.gridWidth == gridWidth && this.gridHeight == gridHeight
      ensures snake == InitialSnake(gridWidth, gridHeight)
      ensures direction == West
      ensures score == 0 && !shouldGrow && !keyPressedThisTick
    {
      this.gridWidth := gridWidth;
      this.gridHeight := gridHeight;
      score := 0;
      shouldGrow := false;
      keyPressedThisTick := false;
      snake := [];
      apple := Coordinates(0, 0);
      direction := West;
      new;
      CreateSnake();
      CreateApple();
    }

    /** `createSnake`: appends the five cells of the initial layout. */
    method CreateSnake()
      requires gridWidth > 0 && gridHeight > 0
      modifies this`snake
      ensures snake == old(snake) + InitialSnake(gridWidth, gridHeight)
    {
      var halfWidth := gridWidth / 2;
      var halfHeight := gridHeight / 2;
      for i := 0 to InitialLength
        invariant snake == old(snake) + InitialSnake(gridWidth, gridHeight)[..i]
      {
        AddSnakeCell(halfWidth + i, halfHeight);
      }
    }

    /** `killSnake`: empties the body. */
    method KillSnake()
      modifies this`snake
      ensures snake == []
    {
      snake := [];
    }

    /** `addSnakeCell`: appends one cell at the tail. */
    method AddSnakeCell(x: int, y: int)
      modifies this`snake
      ensures snake == old(snake) + [Coordinates(x, y)]
    {
      snake := snake + [Coordinates(x, y)];
    }

    /** `createApple`: any cell of the grid may be drawn; the choice is not
        checked against the snake's cells. */
    method CreateApple()
      requires gridWidth > 0 && gridHeight > 0
      modifies this`apple
      ensures InGrid(apple, gridWidth, gridHeight)
    {
      assert 0 <= 0 < gridWidth && 0 <= 0 < gridHeight;
      var x :| 0 <= x < gridWidth;
      var y :| 0 <= y < gridHeight;
      apple := Coordinates(x, y);
    }

    /** `moveSnake`: shifts the cells toward the tail, from the tail end to
        the head, then moves the head one unit along the heading, and
        appends the old tail when growth is pending. */
    method MoveSnake()
      requires Valid()
      modifies this`snake, this`shouldGrow
      ensures Valid()
      ensures snake == Moved(old(snake), direction, old(shouldGrow))
      ensures !shouldGrow
    {
      var snakeTail := snake[|snake| - 1];
      var i := |snake| - 1;
      while i > 0
        modifies this`snake
        invariant 0 <= i < |snake| == |old(snake)|
        invariant forall k :: 0 <= k <= i ==> snake[k] == old(snake)[k]
        invariant forall k :: i < k < |snake| ==> snake[k] == old(snake)[k - 1]
      {
        snake := snake[i := snake[i - 1]];
        i := i - 1;
      }
      var snakeHeadCoords := snake[0];
      match direction {
        case North => snakeHeadCoords := snakeHeadCoords.(y := snakeHeadCoords.y - 1);
        case East => snakeHeadCoords := snakeHeadCoords.(x := snakeHeadCoords.x + 1);
        case South => snakeHeadCoords := snakeHeadCoords.(y := snakeHeadCoords.y + 1);
        case West => snakeHeadCoords := snakeHeadCoords.(x := snakeHeadCoords.x - 1);
      }
      snake := snake[0 := snakeHeadCoords];
      assert snake == Moved(old(snake), direction, false);
      if shouldGrow {
        AddSnakeCell(snakeTail.x, snakeTail.y);
        assert Moved(old(snake), direction, true) == Moved(old(snake), direction, false) + [snakeTail];
        shouldGrow := false;
      }
    }

    /** `hasEatenApple`: the head and the apple agree in both coordinates. */
    predicate HasEatenApple()
      reads this
      requires |snake| >= 1
      ensures HasEatenApple() <==> snake[0].x == apple.x && snake[0].y == apple.y
    {
      snake[0] == apple
    }

    /** `hasCollided`: scans the cells after the head for one equal to it,
        then tests the bounds. */
    method HasCollided() returns (r: bool)
      requires |snake| >= 1
      ensures r == Collided(snake, gridWidth, gridHeight)
    {
      var i := 1;
      while i < |snake|
        invariant 1 <= i <= |snake|
        invariant forall k :: 1 <= k < i ==> snake[k] != snake[0]
      {
        if snake[0] == snake[i] {
          return true;
        }
        i := i + 1;
      }
      r := snake[0].x < 0 || snake[0].x > gridWidth || snake[0].y < 0 || snake[0].y > gridHeight;
    }

    /** `tick`: move; if the head reached the apple, draw a new apple, set
        the growth flag and add a point; if the head then collides, lay out
        a fresh body and zero the score; finally release the key latch.
        The heading, the growth flag and the apple survive a reset. */
    method Tick()
      requires Valid()
      modifies this`snake, this`shouldGrow, this`apple, this`score, this`keyPressedThisTick
      ensures Valid()
      ensures var moved := Moved(old(snake), direction, old(shouldGrow));
        var ate := moved[0] == old(apple);
        && shouldGrow == ate
        && (!ate ==> apple == old(apple))
        && (Collided(moved, gridWidth, gridHeight) ==>
              snake == InitialSnake(gridWidth, gridHeight) && score == 0)
        && (!Collided(moved, gridWidth, gridHeight) ==>
              snake == moved && score == old(score) + (if ate then 1 else 0))
      ensures !keyPressedThisTick
    {
      MoveSnake();
      if HasEatenApple() {
        CreateApple();
        shouldGrow := true;
        score := score + 1;
      }
      var collided := HasCollided();
      if collided {
        KillSnake();
        CreateSnake();
        score := 0;
      }
      keyPressedThisTick := false;
    }

    /** `keyPressed`: the first key of a tick sets the latch; an arrow key
        turns the snake unless it asks for the exact reversal. Later keys in
        the same tick change nothing. */
    method KeyPressed(key: Key)
      requires Valid()
      modifies this`direction, this`keyPressedThisTick
      ensures Valid()
      ensures keyPressedThisTick
      ensures old(keyPressedThisTick) ==> direction == old(direction)
      ensures !old(keyPressedThisTick) ==>
        direction == match Requested(key)
                     case None => old(direction)
                     case Some(d) => Turned(old(direction), d)
      ensures direction != Opposite(old(direction))
    {
      if keyPressedThisTick {
        return;
      }
      match key {
        case Up => if direction != South { direction := North; }
        case Right => if direction != West { direction := East; }
        case Down => if direction != North { direction := South; }
        case Left => if direction != East { direction := West; }
        case Other =>
      }
      keyPressedThisTick := true;
    }
  }

  /** A body reset after dying while facing EAST collides on the very next
      move: the heading survives the reset, and the fresh body trails east
      of the head. */
  lemma ResetFacingEastCollidesAgain(gridWidth: int, gridHeight: int, grow: bool)
    requires gridWidth > 0 && gridHeight > 0
    ensures Collided(Moved(InitialSnake(gridWidth, gridHeight), East, grow), gridWidth, gridHeight)
  {
    var s := InitialSnake(gridWidth, gridHeight);
    var m := Moved(s, East, grow);
    assert m[2] == s[1] == m[0];
  }

  /** A fresh body is not in collision on a grid that holds it. */
  lemma InitialSnakeNotCollided(gridWidth: int, gridHeight: int)
    requires gridWidth > 0 && gridHeight > 0
    ensures !Collided(InitialSnake(gridWidth, gridHeight), gridWidth, gridHeight)
  {
  }

  /** With the strict `>` test, a head one column past the drawn grid is not
      fatal, although that cell is off the grid. */
  lemma FarColumnNotFatal(s: seq<Coordinates>, gridWidth: int, gridHeight: int)
    requires gridWidth >= 0
    requires |s| >= 1 && s[0].x == gridWidth && 0 <= s[0].y < gridHeight
    requires forall i :: 1 <= i < |s| ==> s[i] != s[0]
    ensures !InGrid(s[0], gridWidth, gridHeight)
    ensures !Collided(s, gridWidth, gridHeight)
  {
  }

  /** `createApple` may place the apple on the snake: for every body whose
      head is on the grid, some cell that `CreateApple`'s postcondition
      admits (any cell of the grid) is a cell of the body. */
  lemma AppleMayLandOnSnake(snake: seq<Coordinates>, gridWidth: int, gridHeight: int)
    requires |snake| >= 1 && InGrid(snake[0], gridWidth, gridHeight)
    ensures exists c :: InGrid(c, gridWidth, gridHeight) && Contains(snake, c)
  {
    assert Contains(snake, snake[0]);
  }
}
