/**
 * Two-dimensional vectors of the particle engine.
 *
 * In the game, vectors are mutable objects whose `scale` and `add` methods
 * change the receiver in place. Here a vector is an immutable value and each
 * in-place method becomes a function returning the changed copy, so "the
 * argument is not modified" holds by construction. Numbers are exact reals.
 */
module Vector2D {

  datatype Vec = Vec(x: real, y: real)

  /** The zero vector, the start value of every velocity and acceleration. */
  const Zero: Vec := Vec(0.0, 0.0)

  /** Componentwise negation (used only to state properties). */
  function Neg(v: Vec): Vec
  {
    Vec(-v.x, -v.y)
  }

  /** `v.add(o)`: componentwise sum. */
  function Add(v: Vec, o: Vec): Vec
  {
    Vec(v.x + o.x, v.y + o.y)
  }

  /** `v.scale(s)`: both components multiplied by `s`. */
  function Scale(v: Vec, s: real): (r: Vec)
    ensures s == 1.0 ==> r == v
    ensures s == 0.0 ==> r == Zero
  {
    Vec(v.x * s, v.y * s)
  }

  /** `v.magSq()`: the squared length, the engine's cheap distance measure. */
  function MagSq(v: Vec): real
  {
    v.x * v.x + v.y * v.y
  }

  /** The squared length is never negative and is zero exactly for the zero vector. */
  lemma MagSqDefinite(v: Vec)
    ensures MagSq(v) >= 0.0
    ensures v == Zero ==> MagSq(v) == 0.0
    ensures v != Zero ==> MagSq(v) > 0.0
  {
    SquarePositive(v.x);
    SquarePositive(v.y);
    if v.x != 0.0 {
      calc {
        MagSq(v);
        v.x * v.x + v.y * v.y;
      >= v.x * v.x;
      > 0.0;
      }
    } else if v.y != 0.0 {
      calc {
        MagSq(v);
        v.x * v.x + v.y * v.y;
      >= v.y * v.y;
      > 0.0;
      }
    }
  }

  lemma SquarePositive(a: real)
    ensures a * a >= 0.0
    ensures a != 0.0 ==> a * a > 0.0
  {
    if a < 0.0 {
      assert a * a == (-a) * (-a);
    }
  }

  /** `vectorBetween(a, b)`: the vector leading from point `a` to point `b`. */
  function VectorBetween(a: Vec, b: Vec): (v: Vec)
    ensures Add(a, v) == b
    ensures v == Zero <==> a == b
  {
    Vec(b.x - a.x, b.y - a.y)
  }

  /** `between(x1, y1, x2, y2)`: the same, with the two points given as coordinates. */
  function Between(x1: real, y1: real, x2: real, y2: real): (v: Vec)
    ensures v == VectorBetween(Vec(x1, y1), Vec(x2, y2))
  {
    Vec(x2 - x1, y2 - y1)
  }

  /** Swapping the endpoints negates the vector and keeps its squared length. */
  lemma BetweenAntisymmetric(a: Vec, b: Vec)
    ensures VectorBetween(a, b) == Neg(VectorBetween(b, a))
    ensures MagSq(VectorBetween(a, b)) == MagSq(VectorBetween(b, a))
  {
  }

  /** Scaling by `s` and then by `t` is scaling by `s * t`. */
  lemma ScaleCompose(v: Vec, s: real, t: real)
    ensures Scale(Scale(v, s), t) == Scale(v, s * t)
  {
  }

  /** Adding the zero vector changes nothing, and addition commutes. */
  lemma AddZeroAndCommute(v: Vec, o: Vec)
    ensures Add(v, Zero) == v
    ensures Add(v, o) == Add(o, v)
  {
  }
}
