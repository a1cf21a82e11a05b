/** Exact 2-D arithmetic on board-grid vectors and integer 2x2 matrices.
    Grid positions and tag offsets are multiples of one half and rotation
    entries are 0 or +-1, so rotation is exact; pixel points are computed
    in exact real arithmetic. */
module Vectors {

  /** A point or a displacement in board-grid units: (row, column). */
  datatype Vec = Vec(row: real, col: real)

  function Add(u: Vec, v: Vec): Vec
  {
    Vec(u.row + v.row, u.col + v.col)
  }

  function Sub(u: Vec, v: Vec): Vec
  {
    Vec(u.row - v.row, u.col - v.col)
  }

  function Neg(v: Vec): Vec
  {
    Vec(-v.row, -v.col)
  }

  /** The matrix [[a, b], [c, d]]. */
  datatype Matrix = Matrix(a: int, b: int, c: int, d: int)

  const Identity: Matrix := Matrix(1, 0, 0, 1)

  function Det(m: Matrix): int
  {
    m.a * m.d - m.b * m.c
  }

  /** One coordinate of a matrix-vector product: the integer row (k1, k2)
      times the vector (x1, x2). */
  function Combine(k1: int, k2: int, x1: real, x2: real): real
  {
    k1 as real * x1 + k2 as real * x2
  }

  /** The matrix applied to a column vector (row, col). */
  function Apply(m: Matrix, v: Vec): Vec
  {
    Vec(Combine(m.a, m.b, v.row, v.col), Combine(m.c, m.d, v.row, v.col))
  }

  /** x is a whole number of grid units. */
  predicate IsWhole(x: real)
  {
    x.Floor as real == x
  }

  /** x lies exactly half-way between two whole grid units. */
  predicate IsHalf(x: real)
  {
    IsWhole(x - 0.5)
  }

  lemma WholeNotHalf(x: real)
    ensures !(IsWhole(x) && IsHalf(x))
  {
  }

  /** Shifting by a whole number of units keeps whole and half values apart. */
  lemma ShiftByWhole(x: real, n: int)
    ensures IsWhole(x + n as real) <==> IsWhole(x)
    ensures IsHalf(x + n as real) <==> IsHalf(x)
  {
    assert (x + n as real).Floor == x.Floor + n;
    assert (x - 0.5 + n as real).Floor == (x - 0.5).Floor + n;
  }

  /** Negation keeps whole values whole and half values half. */
  lemma NegKeepsWholeAndHalf(x: real)
    ensures IsWhole(-x) <==> IsWhole(x)
    ensures IsHalf(-x) <==> IsHalf(x)
  {
    if IsWhole(x) {
      assert (-x).Floor == -x.Floor;
    }
    if IsWhole(-x) {
      assert x.Floor == -(-x).Floor;
    }
    if IsHalf(x) {
      assert (-x - 0.5).Floor == -(x - 0.5).Floor - 1;
    }
    if IsHalf(-x) {
      assert (x - 0.5).Floor == -(-x - 0.5).Floor - 1;
    }
  }
}
