/** The tag position projector: where a part's printed tag sits on the grid,
    given the part's reference cell, its label and its facing, and the exact
    inverse of that computation. */
module TagProjection {
  import opened Vectors
  import opened Errors
  import opened Orientations
  import opened CellGrid

  /** PART_TAG_LOCATION: for each label family, the displacement from the
      part's reference cell to its tag, written for a part facing EAST. */
  const PartTagLocation: map<string, Vec> := map[
    "2" := Vec(0.0, 0.5),
    "4" := Vec(0.0, 1.5),
    "5" := Vec(0.0, 1.5),
    "u2" := Vec(0.5, 1.0)]

  /** The EAST-frame offset of a label family; a label outside the table is
      UnknownLabelFamily. */
  function Offset(family: string): (r: Result<Vec>)
    ensures r.Ok? <==> family in PartTagLocation
    ensures r.Ok? ==> r.value == PartTagLocation[family]
    ensures r.Err? ==> r.error == UnknownLabelFamily(family)
  {
    if family in PartTagLocation then Ok(PartTagLocation[family])
    else Err(UnknownLabelFamily(family))
  }

  /** tag_location_from_part: the reference location plus the family's offset
      turned into the part's frame. */
  function TagLocationFromPart(family: string, loc: Vec, o: Orientation): (r: Result<Vec>)
    ensures r.Ok? <==> family in PartTagLocation
    ensures r.Err? ==> r.error == UnknownLabelFamily(family)
  {
    match Offset(family)
    case Err(e) => Err(e)
    case Ok(offset) => Ok(Add(loc, Rotate(offset, o)))
  }

  /** part_reference_from_tag_location: the tag location minus the family's
      offset turned into the part's frame. */
  function PartReferenceFromTagLocation(family: string, tag: Vec, o: Orientation): (r: Result<Vec>)
    ensures r.Ok? <==> family in PartTagLocation
    ensures r.Err? ==> r.error == UnknownLabelFamily(family)
  {
    match Offset(family)
    case Err(e) => Err(e)
    case Ok(offset) => Ok(Sub(tag, Rotate(offset, o)))
  }

  /** Projecting a reference location to its tag and back returns the
      reference location, for every known label and facing. */
  lemma ReferenceOfTag(family: string, loc: Vec, o: Orientation)
    requires family in PartTagLocation
    ensures PartReferenceFromTagLocation(family, TagLocationFromPart(family, loc, o).value, o)
            == Ok(loc)
  {
  }

  /** Projecting a tag location back to its part and forward again returns
      the tag location. */
  lemma TagOfReference(family: string, tag: Vec, o: Orientation)
    requires family in PartTagLocation
    ensures TagLocationFromPart(family, PartReferenceFromTagLocation(family, tag, o).value, o)
            == Ok(tag)
  {
  }

  /** The inverse is the projection carried out in the opposite facing:
      adding the offset turned half a revolution. */
  lemma ReferenceByInverseOrientation(family: string, tag: Vec, o: Orientation)
    requires family in PartTagLocation
    ensures PartReferenceFromTagLocation(family, tag, o)
            == Ok(Add(tag, Rotate(PartTagLocation[family], InverseOrientation(o))))
  {
    RotateInverse(PartTagLocation[family], o);
  }

  /** The tag moves with its part: shifting the reference location shifts the
      tag location by the same displacement. */
  lemma TagFollowsPart(family: string, loc: Vec, d: Vec, o: Orientation)
    requires family in PartTagLocation
    ensures TagLocationFromPart(family, Add(loc, d), o)
            == Ok(Add(TagLocationFromPart(family, loc, o).value, d))
  {
  }

  /** Every offset of the table has exactly one half-integer coordinate and
      one whole coordinate. */
  lemma OffsetsAreHalfSlots(family: string)
    requires family in PartTagLocation
    ensures (IsWhole(PartTagLocation[family].row) && IsHalf(PartTagLocation[family].col))
         || (IsHalf(PartTagLocation[family].row) && IsWhole(PartTagLocation[family].col))
  {
  }

  /** Turning keeps the pattern "one coordinate whole, the other half",
      possibly swapping which coordinate is which. */
  lemma RotateKeepsHalfSlot(v: Vec, o: Orientation)
    requires (IsWhole(v.row) && IsHalf(v.col)) || (IsHalf(v.row) && IsWhole(v.col))
    ensures Classify(Rotate(v, o)).Some?
  {
    NegKeepsWholeAndHalf(v.row);
    NegKeepsWholeAndHalf(v.col);
  }

  /** A part on a whole grid cell always has its tag on a slot of one of the
      two groups, so no tag location is ever of invalid geometry. */
  lemma TagIsOnSlot(family: string, row: int, col: int, o: Orientation)
    requires family in PartTagLocation
    ensures Classify(TagLocationFromPart(family, Vec(row as real, col as real), o).value).Some?
  {
    var d := Rotate(PartTagLocation[family], o);
    OffsetsAreHalfSlots(family);
    RotateKeepsHalfSlot(PartTagLocation[family], o);
    ShiftByWhole(d.row, row);
    ShiftByWhole(d.col, col);
    assert TagLocationFromPart(family, Vec(row as real, col as real), o).value
           == Vec(d.row + row as real, d.col + col as real);
  }
}
