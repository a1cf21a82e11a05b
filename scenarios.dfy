/** The concrete cases the repository's tests pin down, proved about the
    model: the rotation and projection examples and the three-part board. */
module Scenarios {
  import opened Vectors
  import opened Errors
  import opened Orientations
  import opened CellGrid
  import opened TagProjection
  import opened Extraction

  /** rotate_tag_location on (2, 3) in all four facings and on (0.2, 3.5)
      facing SOUTH. */
  lemma RotateExamples()
    ensures Rotate(Vec(2.0, 3.0), East) == Vec(2.0, 3.0)
    ensures Rotate(Vec(2.0, 3.0), West) == Vec(-2.0, -3.0)
    ensures Rotate(Vec(2.0, 3.0), North) == Vec(-3.0, 2.0)
    ensures Rotate(Vec(2.0, 3.0), South) == Vec(3.0, -2.0)
    ensures Rotate(Vec(0.2, 3.5), South) == Vec(3.5, -0.2)
  {
  }

  /** tag_location_from_part for labels "5" and "u2" at (4, 3). */
  lemma TagLocationExamples()
    ensures TagLocationFromPart("5", Vec(4.0, 3.0), East) == Ok(Vec(4.0, 4.5))
    ensures TagLocationFromPart("5", Vec(4.0, 3.0), South) == Ok(Vec(5.5, 3.0))
    ensures TagLocationFromPart("u2", Vec(4.0, 3.0), West) == Ok(Vec(3.5, 2.0))
    ensures TagLocationFromPart("u2", Vec(4.0, 3.0), North) == Ok(Vec(3.0, 3.5))
  {
  }

  /** The three-part board of the extractor tests. */
  const TestBoard: seq<Part> := [
    Part(0, "4", 1, 4, "west"),
    Part(1, "2", 3, 1, "north"),
    Part(9, "u2", 4, 6, "east")]

  const TestLabels: map<Vec, Expected> := map[
    Vec(1.0, 2.5) := Expected("4", West),
    Vec(2.5, 1.0) := Expected("2", North),
    Vec(4.5, 7.0) := Expected("u2", East)]

  /** The labels map of the test board: one entry per part, keyed by its
      projected tag location. */
  lemma TestBoardLabels()
    ensures LabelsOf(TestBoard) == Ok(TestLabels)
  {
    var p0, p1, p2 := TestBoard[0], TestBoard[1], TestBoard[2];
    assert PartTag(p0) == Ok((Vec(1.0, 2.5), Expected("4", West))) by {
      PartTagErrors(p0);
    }
    assert PartTag(p1) == Ok((Vec(2.5, 1.0), Expected("2", North))) by {
      PartTagErrors(p1);
    }
    assert PartTag(p2) == Ok((Vec(4.5, 7.0), Expected("u2", East))) by {
      PartTagErrors(p2);
    }
    var m0 := map[Vec(1.0, 2.5) := Expected("4", West)];
    var m1 := m0[Vec(2.5, 1.0) := Expected("2", North)];
    assert [p0][..0] == [];
    assert LabelsOf([p0]) == Ok(m0);
    assert [p0, p1][..1] == [p0];
    assert LabelsOf([p0, p1]) == Ok(m1);
    assert TestBoard[..2] == [p0, p1];
    assert m1[Vec(4.5, 7.0) := Expected("u2", East)] == TestLabels;
  }

  /** Among the horizontal slots only the 12th, (1, 2.5), carries a label of
      the test board. */
  lemma HorizontalSlotsOfTestBoard(k: nat)
    requires k < SlotCount
    ensures SlotAt(Horizontal, k) in TestLabels <==> k == 11
  {
    SlotIndexOfSlotAt(Horizontal, k);
    assert SlotIndex(Horizontal, Vec(1.0, 2.5)) == 11;
    assert Classify(Vec(2.5, 1.0)) == Some(Vertical);
    assert Classify(Vec(4.5, 7.0)) == Some(Vertical);
  }

  /** Among the vertical slots only the 20th, (2.5, 1), and the 44th,
      (4.5, 7), carry a label of the test board. */
  lemma VerticalSlotsOfTestBoard(k: nat)
    requires k < SlotCount
    ensures SlotAt(Vertical, k) in TestLabels <==> k == 19 || k == 43
  {
    SlotIndexOfSlotAt(Vertical, k);
    assert Classify(Vec(1.0, 2.5)) == Some(Horizontal);
    assert SlotIndex(Vertical, Vec(2.5, 1.0)) == 19;
    assert SlotIndex(Vertical, Vec(4.5, 7.0)) == 43;
  }

  /** labeled_cells() on the test board: 54 entries per group; the
      horizontal group expects only "4" facing WEST, the vertical group
      "2" facing NORTH and then "u2" facing EAST. */
  lemma TestBoardCells<R>(image: Box -> R, cal: Calibration)
    ensures |Cells(TestLabels, image, cal, Horizontal)| == 9 * 6
    ensures |Cells(TestLabels, image, cal, Vertical)| == 9 * 6
    ensures Expectations(Cells(TestLabels, image, cal, Horizontal)) == [Expected("4", West)]
    ensures Expectations(Cells(TestLabels, image, cal, Vertical))
            == [Expected("2", North), Expected("u2", East)]
  {
    var h := Cells(TestLabels, image, cal, Horizontal);
    forall k | 0 <= k < SlotCount
      ensures h[k].expected.Some? <==> k == 11
    {
      HorizontalSlotsOfTestBoard(k);
    }
    assert h == h[..11] + [h[11]] + h[12..];
    ExpectationsOfEmpty(h[..11]);
    ExpectationsOfEmpty(h[12..]);
    ExpectationsAppend(h[..11] + [h[11]], h[12..]);
    ExpectationsAppend(h[..11], [h[11]]);
    assert h[11].expected == Some(Expected("4", West));
    assert Expectations([h[11]]) == [Expected("4", West)] by {
      assert [h[11]][1..] == [];
    }

    var v := Cells(TestLabels, image, cal, Vertical);
    forall k | 0 <= k < SlotCount
      ensures v[k].expected.Some? <==> k == 19 || k == 43
    {
      VerticalSlotsOfTestBoard(k);
    }
    assert v == v[..19] + [v[19]] + v[20..43] + [v[43]] + v[44..];
    ExpectationsOfEmpty(v[..19]);
    ExpectationsOfEmpty(v[20..43]);
    ExpectationsOfEmpty(v[44..]);
    ExpectationsAppend(v[..19] + [v[19]] + v[20..43] + [v[43]], v[44..]);
    ExpectationsAppend(v[..19] + [v[19]] + v[20..43], [v[43]]);
    ExpectationsAppend(v[..19] + [v[19]], v[20..43]);
    ExpectationsAppend(v[..19], [v[19]]);
    assert v[19].expected == Some(Expected("2", North));
    assert v[43].expected == Some(Expected("u2", East));
    assert Expectations([v[19]]) == [Expected("2", North)] by {
      assert [v[19]][1..] == [];
    }
    assert Expectations([v[43]]) == [Expected("u2", East)] by {
      assert [v[43]][1..] == [];
    }
  }

  /** The extractor test end to end through the class: build from the test
      board, then enumerate. */
  method TestBoardExtraction<R>(image: Box -> R, cal: Calibration)
    returns (v: seq<Cell<R>>, h: seq<Cell<R>>)
    ensures |v| == |h| == 9 * 6
    ensures Expectations(h) == [Expected("4", West)]
    ensures Expectations(v) == [Expected("2", North), Expected("u2", East)]
  {
    TestBoardLabels();
    var r := LabeledCellExtractor.FromBoard(image, cal, TestBoard);
    assert r.value.labels == TestLabels;
    v, h := r.value.LabeledCells();
    TestBoardCells(image, cal);
  }
}
