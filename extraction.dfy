/** The labelled cell extractor: builds the map from tag location to the
    expected (label, orientation) for one board, and enumerates every
    candidate tag slot of the board, in row-major order and per group,
    pairing each with its expected label (or none) and its image region. */
module Extraction {
  import opened Vectors
  import opened Errors
  import opened Orientations
  import opened CellGrid
  import opened TagProjection

  /** One part of the board description: its id, its label, and its
      location (row, column, orientation word). */
  datatype Part = Part(id: int, family: string, row: int, col: int, facing: string)

  /** What the labels map holds for a tag location: (label, orientation). */
  datatype Expected = Expected(family: string, orientation: Orientation)

  /** One part's entry of the labels map, or the error that part raises. */
  function PartTag(p: Part): (r: Result<(Vec, Expected)>)
    ensures r.Ok? ==> Classify(r.value.0).Some? && r.value.1.family == p.family
    ensures r.Ok? ==> ParseOrientation(p.facing) == Ok(r.value.1.orientation)
    ensures r.Ok? ==>
      TagLocationFromPart(p.family, Vec(p.row as real, p.col as real), r.value.1.orientation)
      == Ok(r.value.0)
  {
    match ParseOrientation(p.facing)
    case Err(e) => Err(e)
    case Ok(o) =>
      match TagLocationFromPart(p.family, Vec(p.row as real, p.col as real), o)
      case Err(e) => Err(e)
      case Ok(t) =>
        if Classify(t).None? then Err(InvalidTagGeometry(t)) else Ok((t, Expected(p.family, o)))
  }

  /** A part fails exactly when its orientation word or its label is
      unknown; the geometry check never fires. */
  lemma PartTagErrors(p: Part)
    ensures PartTag(p).Err? <==>
      ParseOrientation(p.facing).Err? || p.family !in PartTagLocation
    ensures ParseOrientation(p.facing).Err? ==> PartTag(p) == Err(InvalidOrientation(p.facing))
    ensures ParseOrientation(p.facing).Ok? && p.family !in PartTagLocation ==>
      PartTag(p) == Err(UnknownLabelFamily(p.family))
  {
    if ParseOrientation(p.facing).Ok? && p.family in PartTagLocation {
      TagIsOnSlot(p.family, p.row, p.col, ParseOrientation(p.facing).value);
    }
  }

  /** The labels map of a board: every part's tag location mapped to its
      (label, orientation), parts taken in order; the first failing part
      decides the error, and a second part on an occupied tag location is
      DuplicateTagLocation. */
  function LabelsOf(parts: seq<Part>): Result<map<Vec, Expected>>
  {
    if parts == [] then Ok(map[])
    else
      match LabelsOf(parts[..|parts| - 1])
      case Err(e) => Err(e)
      case Ok(m) =>
        match PartTag(parts[|parts| - 1])
        case Err(e) => Err(e)
        case Ok(entry) =>
          if entry.0 in m then Err(DuplicateTagLocation(entry.0)) else Ok(m[entry.0 := entry.1])
  }

  /** Once a prefix of the board fails, the whole board fails the same way. */
  lemma {:induction false} LabelsOfErrorPersists(parts: seq<Part>, j: nat)
    requires j <= |parts| && LabelsOf(parts[..j]).Err?
    ensures LabelsOf(parts) == LabelsOf(parts[..j])
    decreases |parts| - j
  {
    if j < |parts| {
      var init := parts[..|parts| - 1];
      assert init[..j] == parts[..j];
      LabelsOfErrorPersists(init, j);
    } else {
      assert parts[..j] == parts;
    }
  }

  ghost predicate AllPartsOk(parts: seq<Part>)
  {
    forall i :: 0 <= i < |parts| ==> PartTag(parts[i]).Ok?
  }

  ghost predicate TagsDistinct(parts: seq<Part>)
    requires AllPartsOk(parts)
  {
    forall i, j :: 0 <= i < j < |parts| ==> PartTag(parts[i]).value.0 != PartTag(parts[j]).value.0
  }

  /** The board's labels map exists exactly when every part projects and no
      two parts share a tag location. */
  lemma {:induction false} LabelsOfSucceeds(parts: seq<Part>)
    ensures LabelsOf(parts).Ok? <==> AllPartsOk(parts) && TagsDistinct(parts)
  {
    if parts != [] {
      var init := parts[..|parts| - 1];
      var last := parts[|parts| - 1];
      LabelsOfSucceeds(init);
      assert forall i :: 0 <= i < |init| ==> init[i] == parts[i];
      if LabelsOf(init).Ok? && PartTag(last).Ok? {
        var t := PartTag(last).value.0;
        if t in LabelsOf(init).value {
          LabelsOfKeys(init);
          var i :| 0 <= i < |init| && PartTag(init[i]).value.0 == t;
          assert PartTag(parts[i]).value.0 == PartTag(parts[|parts| - 1]).value.0;
        } else {
          LabelsOfEntries(init);
        }
      }
    }
  }

  /** Every part of a board that succeeds has its entry in the labels map,
      keyed by its tag location. */
  lemma {:induction false} LabelsOfEntries(parts: seq<Part>)
    requires LabelsOf(parts).Ok?
    ensures forall i :: 0 <= i < |parts| ==>
      PartTag(parts[i]).Ok?
      && PartTag(parts[i]).value.0 in LabelsOf(parts).value
      && LabelsOf(parts).value[PartTag(parts[i]).value.0] == PartTag(parts[i]).value.1
  {
    if parts != [] {
      var init := parts[..|parts| - 1];
      LabelsOfEntries(init);
      assert forall i :: 0 <= i < |init| ==> init[i] == parts[i];
    }
  }

  /** The labels map of a board that succeeds holds one entry per part and
      no key that is not some part's tag location. */
  lemma {:induction false} LabelsOfKeys(parts: seq<Part>)
    requires LabelsOf(parts).Ok?
    ensures |LabelsOf(parts).value| == |parts|
    ensures forall t :: t in LabelsOf(parts).value ==>
      exists i :: 0 <= i < |parts| && PartTag(parts[i]).Ok? && PartTag(parts[i]).value.0 == t
  {
    if parts != [] {
      var init := parts[..|parts| - 1];
      var last := parts[|parts| - 1];
      LabelsOfKeys(init);
      var m := LabelsOf(init).value;
      var t := PartTag(last).value.0;
      assert LabelsOf(parts).value == m[t := PartTag(last).value.1];
      assert |m[t := PartTag(last).value.1]| == |m| + 1;
      forall u | u in LabelsOf(parts).value
        ensures exists i :: 0 <= i < |parts| && PartTag(parts[i]).Ok? && PartTag(parts[i]).value.0 == u
      {
        if u == t {
          assert PartTag(parts[|parts| - 1]).value.0 == u;
        } else {
          var i :| 0 <= i < |init| && PartTag(init[i]).Ok? && PartTag(init[i]).value.0 == u;
          assert parts[i] == init[i];
        }
      }
    }
  }

  /** BuildLabels: the constructor's loop that fills the labels map part by
      part, stopping at the first part that fails. */
  method BuildLabels(parts: seq<Part>) returns (r: Result<map<Vec, Expected>>)
    ensures r == LabelsOf(parts)
  {
    var m: map<Vec, Expected> := map[];
    var i := 0;
    while i < |parts|
      invariant 0 <= i <= |parts|
      invariant LabelsOf(parts[..i]) == Ok(m)
    {
      assert parts[..i + 1][..i] == parts[..i];
      var entry := PartTag(parts[i]);
      if entry.Err? {
        LabelsOfErrorPersists(parts, i + 1);
        return Err(entry.error);
      }
      var (t, x) := entry.value;
      if t in m {
        LabelsOfErrorPersists(parts, i + 1);
        return Err(DuplicateTagLocation(t));
      }
      m := m[t := x];
      i := i + 1;
    }
    assert parts[..i] == parts;
    return Ok(m);
  }

  /** The board extent enumerated for each group: 6 rows of 9 slots. */
  const Rows: nat := 6
  const Cols: nat := 9
  const SlotCount: nat := Rows * Cols

  /** The slot of group g in row i and column j of the enumeration. */
  function SlotPosition(g: Group, i: nat, j: nat): (p: Vec)
    ensures Classify(p) == Some(g)
  {
    ShiftByWhole(0.0, i);
    ShiftByWhole(0.0, j);
    ShiftByWhole(0.5, i);
    ShiftByWhole(0.5, j);
    match g
    case Vertical => Vec(i as real + 0.5, j as real)
    case Horizontal => Vec(i as real, j as real + 0.5)
  }

  /** The k-th slot of group g in row-major order. */
  function SlotAt(g: Group, k: nat): Vec
    requires k < SlotCount
  {
    SlotPosition(g, k / Cols, k % Cols)
  }

  /** The enumeration row and column of a grid position of group g. */
  function SlotRow(g: Group, p: Vec): int
  {
    match g
    case Vertical => (p.row - 0.5).Floor
    case Horizontal => p.row.Floor
  }

  function SlotCol(g: Group, p: Vec): int
  {
    match g
    case Vertical => p.col.Floor
    case Horizontal => (p.col - 0.5).Floor
  }

  /** p is a slot of group g inside the enumerated board extent. */
  predicate InGrid(g: Group, p: Vec)
  {
    Classify(p) == Some(g)
    && 0 <= SlotRow(g, p) < Rows && 0 <= SlotCol(g, p) < Cols
  }

  /** The position of slot p of group g in that group's enumeration. */
  function SlotIndex(g: Group, p: Vec): (k: nat)
    requires InGrid(g, p)
    ensures k < SlotCount
  {
    SlotRow(g, p) * Cols + SlotCol(g, p)
  }

  /** Every enumerated slot lies in the grid, and its index is its place in
      the enumeration. */
  lemma SlotIndexOfSlotAt(g: Group, k: nat)
    requires k < SlotCount
    ensures InGrid(g, SlotAt(g, k)) && SlotIndex(g, SlotAt(g, k)) == k
  {
    var i, j := k / Cols, k % Cols;
    assert (i as real + 0.5 - 0.5).Floor == i && (j as real + 0.5 - 0.5).Floor == j;
  }

  /** Every slot of the grid is enumerated, at its index. */
  lemma SlotAtOfSlotIndex(g: Group, p: Vec)
    requires InGrid(g, p)
    ensures SlotAt(g, SlotIndex(g, p)) == p
  {
    var i, j := SlotRow(g, p), SlotCol(g, p);
    assert (i * Cols + j) / Cols == i && (i * Cols + j) % Cols == j;
  }

  /** (row, column) order: p comes strictly before q. */
  predicate RowMajorBefore(p: Vec, q: Vec)
  {
    p.row < q.row || (p.row == q.row && p.col < q.col)
  }

  /** The enumeration runs in row-major order: ascending row, then
      ascending column. */
  lemma SlotsInRowMajorOrder(g: Group, k1: nat, k2: nat)
    requires k1 < k2 < SlotCount
    ensures RowMajorBefore(SlotAt(g, k1), SlotAt(g, k2))
  {
    assert k1 / Cols < k2 / Cols || (k1 / Cols == k2 / Cols && k1 % Cols < k2 % Cols);
  }

  /** One entry of labeled_cells(): the expected (label, orientation), or
      None for an empty slot, and the image region of the slot. */
  datatype Cell<R> = Cell(expected: Option<Expected>, region: R)

  /** The entry of the k-th slot of group g. */
  function CellAt<R>(labels: map<Vec, Expected>, image: Box -> R, cal: Calibration,
                     g: Group, k: nat): Cell<R>
    requires k < SlotCount
  {
    var p := SlotAt(g, k);
    Cell(if p in labels then Some(labels[p]) else None, image(SlotBox(cal, p)))
  }

  /** All entries of group g, in enumeration order. */
  function Cells<R>(labels: map<Vec, Expected>, image: Box -> R, cal: Calibration,
                    g: Group): (cs: seq<Cell<R>>)
    ensures |cs| == Rows * Cols
  {
    seq(SlotCount, k requires 0 <= k < SlotCount => CellAt(labels, image, cal, g, k))
  }

  /** A label whose tag is a slot of group g inside the grid shows up in
      g's entries exactly once, at the slot's index, with the region of that
      slot. */
  lemma LabelAtItsSlot<R>(labels: map<Vec, Expected>, image: Box -> R, cal: Calibration,
                          g: Group, p: Vec)
    requires p in labels && InGrid(g, p)
    ensures Cells(labels, image, cal, g)[SlotIndex(g, p)]
            == Cell(Some(labels[p]), image(SlotBox(cal, p)))
    ensures forall k :: 0 <= k < SlotCount && k != SlotIndex(g, p) ==> SlotAt(g, k) != p
  {
    SlotAtOfSlotIndex(g, p);
    forall k | 0 <= k < SlotCount && k != SlotIndex(g, p)
      ensures SlotAt(g, k) != p
    {
      SlotIndexOfSlotAt(g, k);
    }
  }

  /** Every non-empty entry of group g comes from a label whose tag is that
      entry's slot; a label whose tag belongs to the other group, or lies
      outside the grid, appears in none of g's entries. */
  lemma EntriesComeFromLabels<R>(labels: map<Vec, Expected>, image: Box -> R,
                                 cal: Calibration, g: Group, k: nat)
    requires k < SlotCount
    ensures Cells(labels, image, cal, g)[k].expected.Some? <==> SlotAt(g, k) in labels
    ensures Cells(labels, image, cal, g)[k].expected.Some? ==>
      InGrid(g, SlotAt(g, k))
      && Cells(labels, image, cal, g)[k].expected.value == labels[SlotAt(g, k)]
  {
    SlotIndexOfSlotAt(g, k);
  }

  /** The non-empty expectations of a list of entries, in order. */
  function Expectations<R>(cells: seq<Cell<R>>): seq<Expected>
  {
    if cells == [] then []
    else
      (if cells[0].expected.Some? then [cells[0].expected.value] else [])
      + Expectations(cells[1..])
  }

  /** Entries that are all empty contribute no expectation. */
  lemma {:induction false} ExpectationsOfEmpty<R>(cells: seq<Cell<R>>)
    requires forall k :: 0 <= k < |cells| ==> cells[k].expected.None?
    ensures Expectations(cells) == []
  {
    if cells != [] {
      ExpectationsOfEmpty(cells[1..]);
    }
  }

  lemma {:induction false} ExpectationsAppend<R>(a: seq<Cell<R>>, b: seq<Cell<R>>)
    ensures Expectations(a + b) == Expectations(a) + Expectations(b)
  {
    if a == [] {
      assert a + b == b;
    } else {
      assert (a + b)[0] == a[0] && (a + b)[1..] == a[1..] + b;
      ExpectationsAppend(a[1..], b);
    }
  }

  /** The labelled slots of group g among the first n of the enumeration. */
  ghost function LabelledSlotsBefore(labels: map<Vec, Expected>, g: Group, n: nat): set<Vec>
  {
    set p | p in labels && InGrid(g, p) && SlotIndex(g, p) < n
  }

  /** Moving the bound past slot n - 1 adds that slot exactly when it is
      labelled. */
  lemma LabelledSlotsStep(labels: map<Vec, Expected>, g: Group, n: nat)
    requires 0 < n <= SlotCount
    ensures SlotAt(g, n - 1) !in LabelledSlotsBefore(labels, g, n - 1)
    ensures LabelledSlotsBefore(labels, g, n)
            == LabelledSlotsBefore(labels, g, n - 1)
               + (if SlotAt(g, n - 1) in labels then {SlotAt(g, n - 1)} else {})
  {
    var p := SlotAt(g, n - 1);
    SlotIndexOfSlotAt(g, n - 1);
    forall q | q in labels && InGrid(g, q) && SlotIndex(g, q) == n - 1
      ensures q == p
    {
      SlotAtOfSlotIndex(g, q);
    }
  }

  /** Moving the bound past one entry adds one expectation exactly when the
      entry is non-empty. */
  lemma ExpectationsStep<R>(cells: seq<Cell<R>>, n: nat)
    requires 0 < n <= |cells|
    ensures |Expectations(cells[..n])|
            == |Expectations(cells[..n - 1])| + (if cells[n - 1].expected.Some? then 1 else 0)
  {
    assert cells[..n] == cells[..n - 1] + [cells[n - 1]];
    ExpectationsAppend(cells[..n - 1], [cells[n - 1]]);
    assert [cells[n - 1]][1..] == [];
  }

  lemma {:induction false} ExpectationsCountPrefix<R>(labels: map<Vec, Expected>, image: Box -> R,
                                                      cal: Calibration, g: Group, n: nat)
    requires n <= SlotCount
    ensures |Expectations(Cells(labels, image, cal, g)[..n])| == |LabelledSlotsBefore(labels, g, n)|
  {
    var c := Cells(labels, image, cal, g);
    if n == 0 {
      assert c[..0] == [];
      assert LabelledSlotsBefore(labels, g, 0) == {};
    } else {
      ExpectationsCountPrefix(labels, image, cal, g, n - 1);
      ExpectationsStep(c, n);
      LabelledSlotsStep(labels, g, n);
    }
  }

  /** Group g has exactly as many non-empty entries as the labels map has
      tag locations on g's slots of the grid. */
  lemma ExpectationsCount<R>(labels: map<Vec, Expected>, image: Box -> R,
                             cal: Calibration, g: Group)
    ensures |Expectations(Cells(labels, image, cal, g))|
            == |set p | p in labels && InGrid(g, p)|
  {
    var c := Cells(labels, image, cal, g);
    ExpectationsCountPrefix(labels, image, cal, g, SlotCount);
    assert c[..SlotCount] == c;
    assert LabelledSlotsBefore(labels, g, SlotCount) == set p | p in labels && InGrid(g, p);
  }

  /** LabeledCellExtractor: the labels map of one board together with the
      image it reads slot regions from and the calibration that places slots
      in that image. */
  class LabeledCellExtractor<R> {
    const image: Box -> R
    const calibration: Calibration
    var labels: map<Vec, Expected>

    constructor (image: Box -> R, calibration: Calibration, labels: map<Vec, Expected>)
      ensures this.image == image && this.calibration == calibration
      ensures this.labels == labels
    {
      this.image := image;
      this.calibration := calibration;
      this.labels := labels;
    }

    /** Building an extractor from a board description: the labels map is
        filled from the parts, and any part that fails makes the whole
        construction fail with that part's error. */
    static method FromBoard(image: Box -> R, calibration: Calibration, board: seq<Part>)
      returns (r: Result<LabeledCellExtractor<R>>)
      ensures r.Err? <==> LabelsOf(board).Err?
      ensures r.Err? ==> r.error == LabelsOf(board).error
      ensures r.Ok? ==> fresh(r.value) && r.value.labels == LabelsOf(board).value
      ensures r.Ok? ==> r.value.image == image && r.value.calibration == calibration
    {
      var built := BuildLabels(board);
      if built.Err? {
        return Err(built.error);
      }
      var extractor := new LabeledCellExtractor(image, calibration, built.value);
      return Ok(extractor);
    }

    /** labeled_cells(): the entries of the vertical group and of the
        horizontal group, each slot of the board visited row by row. */
    method LabeledCells() returns (v: seq<Cell<R>>, h: seq<Cell<R>>)
      ensures v == Cells(labels, image, calibration, Vertical)
      ensures h == Cells(labels, image, calibration, Horizontal)
    {
      v, h := [], [];
      var i := 0;
      while i < Rows
        invariant 0 <= i <= Rows
        invariant |v| == |h| == i * Cols
        invariant forall k :: 0 <= k < |v| ==> v[k] == CellAt(labels, image, calibration, Vertical, k)
        invariant forall k :: 0 <= k < |h| ==> h[k] == CellAt(labels, image, calibration, Horizontal, k)
      {
        var j := 0;
        while j < Cols
          invariant 0 <= j <= Cols
          invariant |v| == |h| == i * Cols + j
          invariant forall k :: 0 <= k < |v| ==> v[k] == CellAt(labels, image, calibration, Vertical, k)
          invariant forall k :: 0 <= k < |h| ==> h[k] == CellAt(labels, image, calibration, Horizontal, k)
        {
          assert (i * Cols + j) / Cols == i && (i * Cols + j) % Cols == j;
          var pv := SlotPosition(Vertical, i, j);
          var ph := SlotPosition(Horizontal, i, j);
          v := v + [Cell(if pv in labels then Some(labels[pv]) else None, image(SlotBox(calibration, pv)))];
          h := h + [Cell(if ph in labels then Some(labels[ph]) else None, image(SlotBox(calibration, ph)))];
          j := j + 1;
        }
        i := i + 1;
      }
    }
  }
}
