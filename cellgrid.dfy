/** The grid-to-pixel mapper and the geometry of tag slots: which grid
    positions are candidate tag slots, how they split into the vertical and
    the horizontal group, and the pixel box of each slot. */
module CellGrid {
  import opened Vectors
  import opened Errors

  /** The calibration of one physical board seen by one camera: the pixel
      offset of grid position (0, 0), the pixel size of one grid step along
      each axis, and the pixel size of a tag box. */
  datatype Calibration = Calibration(
    hMargin: real, wMargin: real,
    hCell: real, wCell: real,
    boxHeight: real, boxWidth: real)

  /** Steps and boxes of positive size. */
  predicate ValidCalibration(cal: Calibration)
  {
    cal.hCell > 0.0 && cal.wCell > 0.0 && cal.boxHeight > 0.0 && cal.boxWidth > 0.0
  }

  /** cell_coordinate(r, c): the pixel point (row, column) of grid position
      (r, c); r and c may be half-integers. */
  function CellCoordinate(cal: Calibration, r: real, c: real): Vec
  {
    Vec(cal.hMargin + r * cal.hCell, cal.wMargin + c * cal.wCell)
  }

  /** The origin of the grid sits at the margins. */
  lemma CellCoordinateOrigin(cal: Calibration)
    ensures CellCoordinate(cal, 0.0, 0.0) == Vec(cal.hMargin, cal.wMargin)
  {
  }

  /** One grid step moves the pixel point by exactly one cell size along
      that axis and leaves the other axis alone. */
  lemma CellCoordinateStep(cal: Calibration, r: real, c: real)
    ensures CellCoordinate(cal, r, c + 1.0)
            == Vec(CellCoordinate(cal, r, c).row, CellCoordinate(cal, r, c).col + cal.wCell)
    ensures CellCoordinate(cal, r + 1.0, c)
            == Vec(CellCoordinate(cal, r, c).row + cal.hCell, CellCoordinate(cal, r, c).col)
  {
  }

  /** The mapper is affine: a displacement (dr, dc) in the grid moves the
      pixel point by (dr * hCell, dc * wCell), wherever it starts. */
  lemma CellCoordinateAffine(cal: Calibration, r: real, c: real, dr: real, dc: real)
    ensures CellCoordinate(cal, r + dr, c + dc)
            == Add(CellCoordinate(cal, r, c), Vec(dr * cal.hCell, dc * cal.wCell))
  {
  }

  /** With positive cell sizes the mapper is strictly increasing per axis. */
  lemma CellCoordinateMonotonic(cal: Calibration, r1: real, c1: real, r2: real, c2: real)
    requires ValidCalibration(cal)
    ensures r1 < r2 ==> CellCoordinate(cal, r1, c1).row < CellCoordinate(cal, r2, c2).row
    ensures c1 < c2 ==> CellCoordinate(cal, r1, c1).col < CellCoordinate(cal, r2, c2).col
  {
    if r1 < r2 {
      ScaleIncreasing(cal.hMargin, cal.hCell, r1, r2);
    }
    if c1 < c2 {
      ScaleIncreasing(cal.wMargin, cal.wCell, c1, c2);
      assert CellCoordinate(cal, r1, c1).col == cal.wMargin + c1 * cal.wCell;
      assert CellCoordinate(cal, r2, c2).col == cal.wMargin + c2 * cal.wCell;
    }
  }

  lemma ScaleIncreasing(margin: real, step: real, x1: real, x2: real)
    requires step > 0.0 && x1 < x2
    ensures margin + x1 * step < margin + x2 * step
  {
    assert x2 * step - x1 * step == (x2 - x1) * step;
  }

  /** A pixel rectangle as the image's region accessor takes it:
      rows rowStart..rowEnd, columns colStart..colEnd. */
  datatype Box = Box(rowStart: real, rowEnd: real, colStart: real, colEnd: real)

  /** The pixel box of the tag slot at grid position p: a box of the
      calibrated tag size centred on the slot's pixel point. */
  function SlotBox(cal: Calibration, p: Vec): (b: Box)
    ensures ValidCalibration(cal) ==> b.rowStart < b.rowEnd && b.colStart < b.colEnd
    ensures b.rowEnd - b.rowStart == cal.boxHeight && b.colEnd - b.colStart == cal.boxWidth
    ensures Vec((b.rowStart + b.rowEnd) / 2.0, (b.colStart + b.colEnd) / 2.0)
            == CellCoordinate(cal, p.row, p.col)
  {
    var centre := CellCoordinate(cal, p.row, p.col);
    Box(centre.row - cal.boxHeight / 2.0, centre.row + cal.boxHeight / 2.0,
        centre.col - cal.boxWidth / 2.0, centre.col + cal.boxWidth / 2.0)
  }

  /** Vertical slots lie on a horizontal grid line (half-integer row, whole
      column); horizontal slots lie on a vertical grid line (whole row,
      half-integer column). */
  datatype Group = Vertical | Horizontal

  /** The group a tag location belongs to, or None when it has any other
      pattern of whole and half coordinates. */
  function Classify(p: Vec): (g: Option<Group>)
    ensures g == Some(Vertical) <==> IsHalf(p.row) && IsWhole(p.col)
    ensures g == Some(Horizontal) <==> IsWhole(p.row) && IsHalf(p.col)
  {
    WholeNotHalf(p.row);
    WholeNotHalf(p.col);
    if IsWhole(p.row) && IsHalf(p.col) then Some(Horizontal)
    else if IsHalf(p.row) && IsWhole(p.col) then Some(Vertical)
    else None
  }
}
