/** Grid coordinates (`Coordinates.java`, and the two-element `Integer[]`
    cells of `GameController.java`) and the unit moves along a heading. The
    y axis grows downward: NORTH is y - 1. */
module Geometry {
  import opened Directions

  datatype Coordinates = Coordinates(x: int, y: int)

  /** Translation by a vector; `Path.java` calls an `add` that
      `Coordinates.java` does not define, so it is defined here. */
  function Add(c: Coordinates, dx: int, dy: int): (r: Coordinates)
  {
    Coordinates(c.x + dx, c.y + dy)
  }

  /** One unit forward along `d`. */
  function Advance(c: Coordinates, d: Direction): (r: Coordinates)
  {
    match d
    case North => Add(c, 0, -1)
    case East => Add(c, 1, 0)
    case South => Add(c, 0, 1)
    case West => Add(c, -1, 0)
  }

  /** One unit backward along `d`. */
  function Retreat(c: Coordinates, d: Direction): (r: Coordinates)
  {
    match d
    case North => Add(c, 0, 1)
    case East => Add(c, -1, 0)
    case South => Add(c, 0, -1)
    case West => Add(c, 1, 0)
  }

  /** The cell lies on the drawn grid `[0, width) x [0, height)`. */
  predicate InGrid(c: Coordinates, width: int, height: int)
  {
    0 <= c.x < width && 0 <= c.y < height
  }

  /** A step changes exactly one coordinate by exactly one. */
  lemma AdvanceIsUnitStep(c: Coordinates, d: Direction)
    ensures var r := Advance(c, d);
      (r.x == c.x && (r.y == c.y + 1 || r.y == c.y - 1)) ||
      (r.y == c.y && (r.x == c.x + 1 || r.x == c.x - 1))
    ensures Advance(c, d) != c
  {
  }

  /** Stepping back undoes stepping forward and vice versa; stepping back
      is stepping forward in the opposite direction. */
  lemma RetreatUndoesAdvance(c: Coordinates, d: Direction)
    ensures Retreat(Advance(c, d), d) == c
    ensures Advance(Retreat(c, d), d) == c
    ensures Retreat(c, d) == Advance(c, Opposite(d))
  {
  }
}
