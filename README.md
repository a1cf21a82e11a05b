# Part classifier geometry and labelling engine

A Dafny model of the coordinate-geometry and labelling core of
`board_perception.part_classifier` (snap_circuits_perception). A board
description lists parts placed on an integer grid, each with a label and a
facing (NORTH, SOUTH, EAST, WEST). The engine:

- turns each label's tag offset, written for a part facing EAST, into the
  part's frame with an integer rotation matrix (`ROTATION`,
  `rotate_tag_location`, `inverse_orientation`);
- projects a part's reference cell to the grid location of its printed tag
  (`tag_location_from_part`), and back (`part_reference_from_tag_location`);
- maps grid positions, whole or half-integer, to pixel points
  (`cell_coordinate`);
- builds, for one board, the map from tag location to expected
  (label, orientation) (`LabeledCellExtractor.labels`), and enumerates every
  candidate tag slot of the board in row-major order for the two slot
  groups. Each slot is paired with its expected label, or none, and with the
  image region of the slot (`labeled_cells()`).

Grid positions and tag offsets are multiples of one half, and rotation
entries are 0 or ±1, so rotation is exact. Pixel points are computed in exact
real arithmetic.

The implementation module `board_perception/part_classifier.py` is not part
of this model. The modelled behaviour follows the assertions of
`board_perception/test/test_part_classifier.py`.

Files, one module each:

- `vectors.dfy` (`Vectors`): grid vectors, integer 2x2 matrices, whole and
  half-integer values.
- `errors.dfy` (`Errors`): the error kinds and the `Option`/`Result` wrappers.
- `orientations.dfy` (`Orientations`): facings, the rotation table, rotation,
  the opposite facing, and parsing of orientation words.
- `cellgrid.dfy` (`CellGrid`): the calibration, the grid-to-pixel mapper,
  slot boxes, and the vertical/horizontal classification of slots.
- `tagprojection.dfy` (`TagProjection`): the label offset table, the
  projector and its inverse.
- `extraction.dfy` (`Extraction`): board parts, the labels map, the slot
  enumeration, and the `LabeledCellExtractor` class.
- `scenarios.dfy` (`Scenarios`): the concrete cases of the repository's
  tests, proved about the model.

Under the tested rotations, NORTH composed with NORTH is WEST, the half
turn; `Orientations.RotateCompose` states the composition law.

## Model

| member | source | states |
|---|---|---|
| `Orientations.Rotation` | board_perception/test/test_part_classifier.py:39-40 | The EAST matrix is the identity, and no other facing's matrix is. |
| `Orientations.RotationIsProper` | board_perception/test/test_part_classifier.py:35-37 | Every matrix of the table has determinant a*d - b*c = 1. |
| `Orientations.Rotate` | board_perception/test/test_part_classifier.py:42-54 | Rotating (a, b) gives (a, b) for EAST, (-a, -b) for WEST, (-b, a) for NORTH and (b, -a) for SOUTH, for every real a and b, fractional ones included. |
| `Orientations.InverseOrientation` | board_perception/test/test_part_classifier.py:70-74 | The opposite facing differs from the facing and is two quarter turns away. |
| `Orientations.InverseOrientationInvolution` | board_perception/test/test_part_classifier.py:70-74 | Taking the opposite facing twice returns the facing (NORTH/SOUTH and EAST/WEST swap). |
| `Orientations.RotateInverse` | board_perception/test/test_part_classifier.py:70-83 | Rotating an offset for the opposite facing negates the offset rotated for the facing. |
| `Orientations.RotateCompose` | board_perception/test/test_part_classifier.py:42-54 | Rotating by o2 and then by o1 equals one rotation by the summed quarter turns, so the four rotations form a cyclic group generated by NORTH. |
| `Orientations.RotateFourTimes` | board_perception/test/test_part_classifier.py:42-54 | Rotating four times by the same facing returns the original vector. |
| `Orientations.ParseOrientation` | board_perception/test/test_part_classifier.py:92-100 | An orientation word fails with InvalidOrientation, carrying the word, exactly when it is not one of "north", "south", "east" or "west". |
| `Orientations.ParseName` | board_perception/test/test_part_classifier.py:92-100 | Parsing a word gives facing o exactly when the word is o's name: parsing and naming are inverse. |
| `CellGrid.CellCoordinateOrigin` | board_perception/test/test_part_classifier.py:23-24 | cell_coordinate(0, 0) is (H_MARGIN, W_MARGIN). |
| `CellGrid.CellCoordinateStep` | board_perception/test/test_part_classifier.py:26-30 | One column step adds exactly W_CELL to the pixel column, one row step adds exactly H_CELL to the pixel row, and the other axis is unchanged. |
| `CellGrid.CellCoordinateAffine` | board_perception/test/test_part_classifier.py:23-30 | A grid displacement (dr, dc) moves the pixel point by (dr*H_CELL, dc*W_CELL) from any starting position, half-integer ones included. |
| `CellGrid.CellCoordinateMonotonic` | board_perception/test/test_part_classifier.py:23-30 | With positive cell sizes the pixel row strictly increases with the grid row, and the pixel column with the grid column. |
| `CellGrid.SlotBox` | board_perception/test/test_part_classifier.py:121-125 | A slot's box has the calibrated tag height and width, is non-empty for a valid calibration, and is centred on the slot's cell_coordinate. |
| `CellGrid.Classify` | board_perception/test/test_part_classifier.py:116-120 | A location is horizontal exactly when its row is whole and its column half-integer. It is vertical exactly when its row is half-integer and its column whole. |
| `TagProjection.Offset` | board_perception/test/test_part_classifier.py:56-68 | A label's offset is its PART_TAG_LOCATION entry; a label outside the table fails with UnknownLabelFamily. |
| `TagProjection.TagLocationFromPart` | board_perception/test/test_part_classifier.py:56-68 | The projection succeeds exactly for labels in PART_TAG_LOCATION; otherwise it fails with UnknownLabelFamily. |
| `TagProjection.PartReferenceFromTagLocation` | board_perception/test/test_part_classifier.py:76-83 | The inverse projection succeeds exactly for labels in PART_TAG_LOCATION; otherwise it fails with UnknownLabelFamily. |
| `TagProjection.ReferenceOfTag` | board_perception/test/test_part_classifier.py:76-83 | For every label in the table, every facing and every location, projecting to the tag and back returns the location. |
| `TagProjection.TagOfReference` | board_perception/test/test_part_classifier.py:76-83 | For every label in the table, every facing and every tag location, projecting back to the part and forward again returns the tag location. |
| `TagProjection.ReferenceByInverseOrientation` | board_perception/test/test_part_classifier.py:70-83 | The inverse projection equals adding the offset rotated for the opposite facing. |
| `TagProjection.TagFollowsPart` | board_perception/test/test_part_classifier.py:56-68 | Shifting a part's reference location shifts its tag location by the same displacement. |
| `TagProjection.OffsetsAreHalfSlots` | board_perception/test/test_part_classifier.py:56-68 | Every offset of the table has one whole and one half-integer coordinate. |
| `TagProjection.TagIsOnSlot` | board_perception/test/test_part_classifier.py:106-120 | A part on a whole grid cell has its tag on a slot of one of the two groups, for every known label and facing. |
| `Extraction.PartTag` | board_perception/test/test_part_classifier.py:88-110 | A part's entry, when it exists, is its parsed facing and its label, keyed by the projected tag location, and that location classifies into a group. |
| `Extraction.PartTagErrors` | board_perception/test/test_part_classifier.py:88-104 | A part fails exactly when its orientation word or its label is unknown, with InvalidOrientation checked first; InvalidTagGeometry never occurs. |
| `Extraction.LabelsOfErrorPersists` | board_perception/test/test_part_classifier.py:88-104 | Once a prefix of the board fails, the whole board fails with the same error. |
| `Extraction.LabelsOfSucceeds` | board_perception/test/test_part_classifier.py:106-110 | The labels map exists exactly when every part projects and no two parts share a tag location. |
| `Extraction.LabelsOfEntries` | board_perception/test/test_part_classifier.py:106-110 | For a board that succeeds, every part's tag location is a key that maps to that part's (label, orientation). |
| `Extraction.LabelsOfKeys` | board_perception/test/test_part_classifier.py:106-110 | For a board that succeeds, the map has exactly one entry per part and no key that is not some part's tag location. |
| `Extraction.BuildLabels` | board_perception/test/test_part_classifier.py:88-104 | The constructor's loop over the parts returns exactly the board's labels map or its first error. |
| `Extraction.SlotPosition` | board_perception/test/test_part_classifier.py:112-120 | Every enumerated slot of a group classifies into that group. |
| `Extraction.SlotIndex` | board_perception/test/test_part_classifier.py:112-115 | Every grid slot of a group has an enumeration index below 9*6. |
| `Extraction.SlotIndexOfSlotAt` | board_perception/test/test_part_classifier.py:112-120 | The k-th enumerated slot lies in the grid, and its index is k. |
| `Extraction.SlotAtOfSlotIndex` | board_perception/test/test_part_classifier.py:112-120 | Every slot of the grid is enumerated, at its index. |
| `Extraction.SlotsInRowMajorOrder` | board_perception/test/test_part_classifier.py:116-120 | Earlier entries have a strictly smaller row, or the same row and a strictly smaller column. |
| `Extraction.Cells` | board_perception/test/test_part_classifier.py:113-115 | Each group has 9*6 entries. |
| `Extraction.LabelAtItsSlot` | board_perception/test/test_part_classifier.py:116-120 | A label whose tag is a grid slot of a group appears in that group's entries at the slot's index, with that slot's region, and at no other index. |
| `Extraction.EntriesComeFromLabels` | board_perception/test/test_part_classifier.py:116-120 | An entry is non-empty exactly when its slot is a key of the labels map. A non-empty entry carries that key's (label, orientation), and its slot is a grid slot of the group. |
| `Extraction.ExpectationsCount` | board_perception/test/test_part_classifier.py:116-120 | Each group has exactly as many non-empty entries as the labels map has keys on that group's grid slots. |
| `Extraction.LabeledCellExtractor.constructor` | board_perception/test/test_part_classifier.py:103-104 | The extractor holds the given image accessor, calibration and labels map. |
| `Extraction.LabeledCellExtractor.FromBoard` | board_perception/test/test_part_classifier.py:88-110 | Building from a board fails exactly when the board's labels map fails, with the same error. On success it gives a fresh extractor whose labels are the board's labels map. |
| `Extraction.LabeledCellExtractor.LabeledCells` | board_perception/test/test_part_classifier.py:112-120 | Returns (v, h): the vertical and horizontal groups' entries, each slot visited row by row, equal to the enumeration specified by Cells. |
| `Scenarios.RotateExamples` | board_perception/test/test_part_classifier.py:42-54 | The rotations of (2, 3) for all four facings, and of (0.2, 3.5) for SOUTH. |
| `Scenarios.TagLocationExamples` | board_perception/test/test_part_classifier.py:56-68 | "5" at (4, 3) gives (4, 4.5) for EAST and (5.5, 3) for SOUTH. "u2" at (4, 3) gives (3.5, 2) for WEST and (3, 3.5) for NORTH. |
| `Scenarios.TestBoardLabels` | board_perception/test/test_part_classifier.py:88-110 | The three-part board has labels exactly {(1, 2.5): ("4", WEST), (2.5, 1): ("2", NORTH), (4.5, 7): ("u2", EAST)}. |
| `Scenarios.TestBoardCells` | board_perception/test/test_part_classifier.py:112-120 | For that map, each group has 54 entries. The horizontal group expects only "4"/WEST; the vertical group expects "2"/NORTH and then "u2"/EAST. |
| `Scenarios.TestBoardExtraction` | board_perception/test/test_part_classifier.py:103-120 | Through the class, building from the test board and calling LabeledCells gives those two groups. |

## Left out

- `visual_test` (image files, JSON loading, OpenCV display and the in-place alpha overlay) is I/O and display, not engine logic.
- The image is an abstract region accessor `Box -> R`. The test's `DummyImage`, whose slicing returns the 4-tuple (row start, row stop, column start, column stop), corresponds to the accessor that returns the box itself. numpy views and dtypes are not modelled.
- The margins, cell sizes and tag box size are a `Calibration` parameter, not fixed literal values. So the literal pixel boxes of the non-regression assertions are not reproduced.
- CellGrid.SlotBox: the box is real-valued and centred on the slot's pixel point. This anchoring agrees with the non-regression boxes, but the integer truncation of pixel bounds is not modelled, because its rounding rule is not part of this model.
- `PART_TAG_LOCATION` holds only the four label families the tests pin down ("2", "4", "5", "u2"). The model treats every other family as UnknownLabelFamily.
- Orientation words are matched exactly, in lower case. Any other casing the real parser may accept is not modelled.
- The grid extent is 6 rows by 9 columns per group. The tests fix only the 9*6 count; this split is the one under which slot (4.5, 7) is on the board.
- Python's constructor raises on a bad board. In the model `LabeledCellExtractor.FromBoard` returns a `Result`, and the plain constructor takes a labels map that is already built.
- `LabelsOf` rejects a board in which two parts share a tag location (DuplicateTagLocation) and a tag location with any other whole/half pattern (InvalidTagGeometry). The tests exercise neither case. The model proves InvalidTagGeometry cannot occur for parts on whole cells.
- Floating-point rounding of the pixel arithmetic (`cell_coordinate` and the slot boxes) is not modelled: pixel points are exact reals.
- The round-trip test samples a random integer location. The model proves the round trip for every real location instead.
- Products of rotation matrices are not modelled as matrix multiplication. The group structure is stated on the vectors the matrices rotate (`RotateCompose`, `RotateFourTimes`, `RotateInverse`).
- A part's `id` is carried but never used, as in the tests.
