/** The orientation model: the four facings of a part, the rotation matrix
    each one applies to a tag offset, the opposite facing, and the parsing of
    the board description's orientation words. */
module Orientations {
  import opened Vectors
  import opened Errors

  /** NORTH, SOUTH, EAST and WEST; EAST is the reference frame in which tag
      offsets are written. */
  datatype Orientation = North | South | East | West

  /** ROTATION[o]: the integer matrix that carries an EAST-frame offset into
      the frame of a part facing o. */
  function Rotation(o: Orientation): (m: Matrix)
    ensures m == Identity <==> o == East
  {
    match o
    case East => Matrix(1, 0, 0, 1)
    case West => Matrix(-1, 0, 0, -1)
    case North => Matrix(0, -1, 1, 0)
    case South => Matrix(0, 1, -1, 0)
  }

  /** Every matrix of the table is a proper rotation: determinant one.
      ROTATION is indexed by orientation, so ranging over the four
      orientations ranges over the whole table. */
  lemma RotationIsProper(o: Orientation)
    ensures Det(Rotation(o)) == 1
  {
    match o
    case East =>
    case West =>
    case North =>
    case South =>
  }

  /** rotate_tag_location: the offset v seen from a part facing o. */
  function Rotate(v: Vec, o: Orientation): (r: Vec)
    ensures o == East ==> r == v
    ensures o == West ==> r == Vec(-v.row, -v.col)
    ensures o == North ==> r == Vec(-v.col, v.row)
    ensures o == South ==> r == Vec(v.col, -v.row)
  {
    Apply(Rotation(o), v)
  }

  /** inverse_orientation: the facing turned by half a revolution. */
  function InverseOrientation(o: Orientation): (r: Orientation)
    ensures r != o
    ensures QuarterTurns(r) == (QuarterTurns(o) + 2) % 4
  {
    match o
    case North => South
    case South => North
    case East => West
    case West => East
  }

  lemma InverseOrientationInvolution(o: Orientation)
    ensures InverseOrientation(InverseOrientation(o)) == o
  {
  }

  /** Rotating by the opposite facing negates the rotated offset. */
  lemma RotateInverse(v: Vec, o: Orientation)
    ensures Rotate(v, InverseOrientation(o)) == Neg(Rotate(v, o))
  {
  }

  /** The number of quarter turns, counted from EAST through NORTH, that
      reach o. */
  function QuarterTurns(o: Orientation): (n: nat)
    ensures n < 4
  {
    match o
    case East => 0
    case North => 1
    case West => 2
    case South => 3
  }

  function FromQuarterTurns(n: nat): (o: Orientation)
    ensures QuarterTurns(o) == n % 4
  {
    if n % 4 == 0 then East else if n % 4 == 1 then North
    else if n % 4 == 2 then West else South
  }

  /** Turning by o2 and then by o1 is turning by the summed quarter turns:
      the four rotations form a cyclic group generated by NORTH. */
  lemma RotateCompose(v: Vec, o1: Orientation, o2: Orientation)
    ensures Rotate(Rotate(v, o2), o1)
            == Rotate(v, FromQuarterTurns(QuarterTurns(o1) + QuarterTurns(o2)))
  {
  }

  /** Applying one facing's rotation four times returns the original vector. */
  lemma RotateFourTimes(v: Vec, o: Orientation)
    ensures Rotate(Rotate(Rotate(Rotate(v, o), o), o), o) == v
  {
  }

  /** The orientation words of the board description. */
  function Name(o: Orientation): string
  {
    match o
    case North => "north"
    case South => "south"
    case East => "east"
    case West => "west"
  }

  /** Reading an orientation word; anything but the four lower-case words is
      InvalidOrientation. */
  function ParseOrientation(s: string): (r: Result<Orientation>)
    ensures r.Err? <==> s !in {"north", "south", "east", "west"}
    ensures r.Err? ==> r.error == InvalidOrientation(s)
  {
    if s == "north" then Ok(North)
    else if s == "south" then Ok(South)
    else if s == "east" then Ok(East)
    else if s == "west" then Ok(West)
    else Err(InvalidOrientation(s))
  }

  /** Parsing is the inverse of naming, in both directions. */
  lemma ParseName(s: string, o: Orientation)
    ensures ParseOrientation(s) == Ok(o) <==> s == Name(o)
  {
  }
}
