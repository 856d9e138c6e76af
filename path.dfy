/** `Path.java`: a cursor on the grid with a heading that is unset until
    first chosen, and a record of headings. The class is not used by the
    game itself. */
module Paths {
  import opened Wrappers
  import opened Directions
  import opened Geometry

  class Path {
    /** The recorded headings; an entry is `None` when `addDirection` ran
        before any heading was set. */
    var path: seq<Option<Direction>>
    var direction: Option<Direction>
    var pos: Coordinates

    constructor (startPos: Coordinates)
      ensures pos == startPos && direction == None && path == []
    {
      path := [];
      direction := None;
      pos := startPos;
    }

    /** `getPos`: the current position. */
    function GetPos(): (p: Coordinates)
      reads this
      ensures p == pos
    {
      pos
    }

    /** `changeDirection`: with no heading set yet any request is taken;
        afterwards the request is taken unless it is the exact reversal of
        the current heading. */
    method ChangeDirection(dir: Direction)
      modifies this`direction
      ensures old(direction).None? ==> direction == Some(dir)
      ensures old(direction).Some? ==> direction == Some(Turned(old(direction).value, dir))
      ensures old(direction).Some? ==> direction.value != Opposite(old(direction).value)
    {
      match dir {
        case North => if direction != Some(South) { direction := Some(North); }
        case East => if direction != Some(West) { direction := Some(East); }
        case South => if direction != Some(North) { direction := Some(South); }
        case West => if direction != Some(East) { direction := Some(West); }
      }
    }

    /** `moveForward`: one unit along the heading. Without a heading the
        Java `switch` dereferences null; a heading is required. */
    method MoveForward()
      requires direction.Some?
      modifies this`pos
      ensures pos == Advance(old(pos), direction.value)
    {
      match direction.value {
        case North => pos := Add(pos, 0, -1);
        case East => pos := Add(pos, 1, 0);
        case South => pos := Add(pos, 0, 1);
        case West => pos := Add(pos, -1, 0);
      }
    }

    /** `moveBack`: one unit against the heading; a heading is required as
        for `MoveForward`. */
    method MoveBack()
      requires direction.Some?
      modifies this`pos
      ensures pos == Retreat(old(pos), direction.value)
    {
      match direction.value {
        case North => pos := Add(pos, 0, 1);
        case East => pos := Add(pos, -1, 0);
        case South => pos := Add(pos, 0, -1);
        case West => pos := Add(pos, 1, 0);
      }
    }

    /** `addDirection`: records the current heading (possibly unset). */
    method AddDirection()
      modifies this`path
      ensures path == old(path) + [direction]
    {
      path := path + [direction];
    }

    /** `getPath`: the entry recorded by the `index`-th `addDirection`; an
        index out of range throws in Java and is excluded here. */
    function GetPath(index: int): (d: Option<Direction>)
      reads this
      requires 0 <= index < |path|
      ensures d == path[index]
    {
      path[index]
    }
  }

  /** `moveBack` right after `moveForward`, with the heading unchanged,
      returns the cursor to where it was, and so does the other order. */
  method ForwardThenBack(p: Path)
    requires p.direction.Some?
    modifies p
    ensures p.pos == old(p.pos) && p.direction == old(p.direction) && p.path == old(p.path)
  {
    p.MoveForward();
    p.MoveBack();
    RetreatUndoesAdvance(old(p.pos), p.direction.value);
  }

  method BackThenForward(p: Path)
    requires p.direction.Some?
    modifies p
    ensures p.pos == old(p.pos) && p.direction == old(p.direction) && p.path == old(p.path)
  {
    p.MoveBack();
    p.MoveForward();
    RetreatUndoesAdvance(old(p.pos), p.direction.value);
  }
}
