/** The compass directions of `Direction.java` (the private enum nested in
    `GameController.java` has the same four constants in the same order),
    their rotations, and the reversal rule that both the controller and
    `Path` apply when asked to turn. */
module Directions {
  import opened Wrappers

  datatype Direction = North | East | South | West

  /** `values()`: the constants in declaration order. */
  const Values: seq<Direction> := [North, East, South, West]

  /** `ordinal()`: the position of a constant in declaration order. */
  function Ordinal(d: Direction): (n: nat)
    ensures n < |Values| && Values[n] == d
  {
    match d
    case North => 0
    case East => 1
    case South => 2
    case West => 3
  }

  /** `a % values.length` under Java's `%`, where `values.length` is 4:
      division truncates toward zero, so the remainder takes the sign of
      the dividend. Dafny's own `%` is Euclidean; the two agree on
      non-negative dividends; for negative ones Java's remainder is the
      Euclidean one minus 4, unless that is zero. */
  function JavaRemByCount(a: int): (r: int)
    ensures a >= 0 ==> 0 <= r < 4 && r == a % 4
    ensures a < 0 ==> r == (if a % 4 == 0 then 0 else a % 4 - 4)
  {
    if a >= 0 then a % 4 else -((-a) % 4)
  }

  /** `next()`: one step along the cyclic order. */
  function Next(d: Direction): (r: Direction)
    ensures Ordinal(r) == (Ordinal(d) + 1) % 4
  {
    Values[JavaRemByCount(Ordinal(d) + 1)]
  }

  /** `previous()`: indexes `values` with `(ordinal - 1) % 4` under Java's
      `%`. For NORTH that index is -1 and the array access throws; `None`
      stands for that exception. */
  function Previous(d: Direction): (r: Option<Direction>)
    ensures r.None? <==> d == North
    ensures r.Some? ==> Ordinal(r.value) == Ordinal(d) - 1
  {
    var i := JavaRemByCount(Ordinal(d) - 1);
    if 0 <= i < |Values| then Some(Values[i]) else None
  }

  /** The direction two rotation steps away: the exact reversal. */
  function Opposite(d: Direction): (r: Direction)
    ensures Ordinal(r) == (Ordinal(d) + 2) % 4
  {
    match d
    case North => South
    case East => West
    case South => North
    case West => East
  }

  /** The reversal rule: a request for the exact opposite of the current
      heading is ignored, any other request is taken. */
  function Turned(current: Direction, requested: Direction): (r: Direction)
    ensures r == current || r == requested
    ensures r == requested <==> requested != Opposite(current)
    ensures r != Opposite(current)
  {
    if current == Opposite(requested) then current else requested
  }

  /** `next()` applied `k` times. */
  function NextN(d: Direction, k: nat): (r: Direction)
  {
    if k == 0 then d else Next(NextN(d, k - 1))
  }

  lemma NextTable()
    ensures Next(North) == East && Next(East) == South
    ensures Next(South) == West && Next(West) == North
  {
  }

  lemma PreviousTable()
    ensures Previous(East) == Some(North)
    ensures Previous(South) == Some(East)
    ensures Previous(West) == Some(South)
    ensures Previous(North) == None
  {
  }

  /** `k` calls of `next()` advance the ordinal by `k` modulo 4. */
  lemma {:induction false} NextNOrdinal(d: Direction, k: nat)
    ensures Ordinal(NextN(d, k)) == (Ordinal(d) + k) % 4
  {
    if k > 0 {
      var prev := NextN(d, k - 1);
      NextNOrdinal(d, k - 1);
      assert NextN(d, k) == Next(prev);
      ModSucc(Ordinal(d) + k - 1);
    }
  }

  lemma ModSucc(o: nat)
    ensures (o % 4 + 1) % 4 == (o + 1) % 4
  {
  }

  /** Four calls of `next()` come back to the start. */
  lemma NextFourTimes(d: Direction)
    ensures Next(Next(Next(Next(d)))) == d
  {
  }

  /** `previous()` undoes `next()` wherever both are defined, and the other
      way round. */
  lemma NextPreviousInverse(d: Direction)
    ensures d != West ==> Previous(Next(d)) == Some(d)
    ensures d != North ==> Previous(d).Some? && Next(Previous(d).value) == d
  {
  }

  /** Reversal is two rotation steps, and reversing twice is the identity. */
  lemma OppositeIsTwoSteps(d: Direction)
    ensures Opposite(d) == Next(Next(d))
    ensures Opposite(Opposite(d)) == d && Opposite(d) != d
  {
  }
}
