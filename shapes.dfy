/** The marker shapes of the loading view and the cyclic order in which
    `exchangeShape` steps through them. */
module Shapes {

  /** The `Shape` enum: a square (`SHAPE_RECT`), a circle and a triangle. */
  datatype Shape = Rect | Circle | Triangle

  /** The cyclic display order, starting from the initial shape. */
  const Order: seq<Shape> := [Rect, Circle, Triangle]

  /** Position of a shape in `Order`. */
  function Index(s: Shape): (k: nat)
    ensures k < |Order| && Order[k] == s
  {
    match s
    case Rect => 0
    case Circle => 1
    case Triangle => 2
  }

  /** The shape `exchangeShape` switches to from `s`. */
  function Next(s: Shape): (r: Shape)
    ensures r != s
  {
    match s
    case Rect => Circle
    case Circle => Triangle
    case Triangle => Rect
  }

  /** `Next` is the successor in `Order`, wrapping round after the triangle. */
  lemma NextIsSuccessor(s: Shape)
    ensures Index(Next(s)) == (Index(s) + 1) % 3
    ensures Next(s) == Order[(Index(s) + 1) % 3]
  {
  }

  /** The shape shown after `n` calls of `exchangeShape`, starting from `s`. */
  function Advance(n: nat, s: Shape): (r: Shape)
    decreases n
  {
    if n == 0 then s else Next(Advance(n - 1, s))
  }

  /** After `n` exchanges the shape sits `n` places further round `Order`. */
  lemma {:induction false} AdvanceIndex(n: nat, s: Shape)
    ensures Index(Advance(n, s)) == (Index(s) + n) % 3
    ensures Advance(n, s) == Order[(Index(s) + n) % 3]
  {
    if n > 0 {
      AdvanceIndex(n - 1, s);
      NextIsSuccessor(Advance(n - 1, s));
    }
  }

  /** Three exchanges bring back the starting shape, and no fewer do:
      the cycle has period exactly 3. */
  lemma {:induction false} AdvancePeriod(n: nat, s: Shape)
    ensures Advance(n + 3, s) == Advance(n, s)
    ensures Advance(n, s) == s <==> n % 3 == 0
  {
    AdvanceIndex(n, s);
    AdvanceIndex(n + 3, s);
    assert (Index(s) + n + 3) % 3 == (Index(s) + n) % 3;
    if Advance(n, s) == s {
      assert Index(Advance(n, s)) == Index(s);
    }
  }

  /** Starting from the square, the shape after `n` exchanges is square,
      circle, triangle, square, ... according to `n % 3`. */
  lemma ShapesFromSquare(n: nat)
    ensures Advance(n, Rect) == (if n % 3 == 0 then Rect else if n % 3 == 1 then Circle else Triangle)
  {
    AdvanceIndex(n, Rect);
  }
}
