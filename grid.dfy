/**
 * The ground grid (buildGridAttributes): line segments on the y = 0 plane
 * over the square [-1000, 1000] x [-1000, 1000], one row segment per x step
 * and one column segment per z step, plus one copy of the grid colour per
 * vertex. Spacings are positive integers; coordinates are exact reals.
 */
module Grid {
  import opened Colors

  /** How far the grid extends along x and along z. */
  const GridXRange: int := 1000
  const GridZRange: int := 1000

  /** A vertex position. */
  datatype Point = Point(x: real, y: real, z: real)

  /** Vertex k of a flat position list. */
  function PointAt(s: seq<real>, k: nat): Point
    requires 3 * k + 3 <= |s|
  {
    Point(s[3 * k], s[3 * k + 1], s[3 * k + 2])
  }

  /** The row segments still to come once the row loop has reached x. */
  function Rows(spacing: nat, x: int): seq<real>
    requires spacing > 0
    decreases GridXRange - x
  {
    if x < GridXRange then
      [x as real, 0.0, -GridZRange as real] + [x as real, 0.0, GridZRange as real] + Rows(spacing, x + spacing)
    else []
  }

  /** The column segments still to come once the column loop has reached z. */
  function Columns(spacing: nat, z: int): seq<real>
    requires spacing > 0
    decreases GridZRange - z
  {
    if z < GridZRange then
      [-GridXRange as real, 0.0, z as real] + [GridXRange as real, 0.0, z as real] + Columns(spacing, z + spacing)
    else []
  }

  /** How many steps of size `spacing` a loop from `from` takes while below `bound`. */
  function LineCount(spacing: nat, from: int, bound: int): nat
    requires spacing > 0
    decreases bound - from
  {
    if from < bound then 1 + LineCount(spacing, from + spacing, bound) else 0
  }

  /** The whole grid mesh: all rows, then all columns. */
  function GridMesh(rowSpacing: nat, columnSpacing: nat): seq<real>
    requires rowSpacing > 0 && columnSpacing > 0
  {
    Rows(rowSpacing, -GridXRange) + Columns(columnSpacing, -GridZRange)
  }

  /** k copies of one colour. */
  function Repeat(c: Rgb, k: nat): seq<real> {
    if k == 0 then [] else Repeat(c, k - 1) + c.Floats()
  }

  method BuildGridAttributes(rowSpacing: nat, columnSpacing: nat, gridColor: Rgb)
    returns (mesh: seq<real>, colors: seq<real>)
    requires rowSpacing > 0 && columnSpacing > 0
    ensures mesh == GridMesh(rowSpacing, columnSpacing)
    ensures |mesh| % 3 == 0
    ensures colors == Repeat(gridColor, |mesh| / 3)
    ensures |colors| == |mesh|
    ensures forall k :: 0 <= k < |mesh| / 3 ==> TripleAt(colors, k) == gridColor
  {
    mesh := [];
    var x := -GridXRange;
    while x < GridXRange
      invariant mesh + Rows(rowSpacing, x) == Rows(rowSpacing, -GridXRange)
      decreases GridXRange - x
    {
      ghost var segment := [x as real, 0.0, -GridZRange as real] + [x as real, 0.0, GridZRange as real];
      assert Rows(rowSpacing, x) == segment + Rows(rowSpacing, x + rowSpacing);
      AppendAssoc(mesh, segment, Rows(rowSpacing, x + rowSpacing));
      AppendAssoc(mesh, [x as real, 0.0, -GridZRange as real], [x as real, 0.0, GridZRange as real]);
      mesh := mesh + [x as real, 0.0, -GridZRange as real];
      mesh := mesh + [x as real, 0.0, GridZRange as real];
      x := x + rowSpacing;
    }
    assert Rows(rowSpacing, x) == [];
    assert mesh == Rows(rowSpacing, -GridXRange);
    ghost var rows := mesh;
    var z := -GridZRange;
    while z < GridZRange
      invariant mesh + Columns(columnSpacing, z) == rows + Columns(columnSpacing, -GridZRange)
      decreases GridZRange - z
    {
      ghost var segment := [-GridXRange as real, 0.0, z as real] + [GridXRange as real, 0.0, z as real];
      assert Columns(columnSpacing, z) == segment + Columns(columnSpacing, z + columnSpacing);
      AppendAssoc(mesh, segment, Columns(columnSpacing, z + columnSpacing));
      AppendAssoc(mesh, [-GridXRange as real, 0.0, z as real], [GridXRange as real, 0.0, z as real]);
      mesh := mesh + [-GridXRange as real, 0.0, z as real];
      mesh := mesh + [GridXRange as real, 0.0, z as real];
      z := z + columnSpacing;
    }
    assert Columns(columnSpacing, z) == [];
    assert mesh == GridMesh(rowSpacing, columnSpacing);
    GridMeshLength(rowSpacing, columnSpacing);
    ghost var vertices := 2 * (LineCount(rowSpacing, -GridXRange, GridXRange) + LineCount(columnSpacing, -GridZRange, GridZRange));
    assert |mesh| == 3 * vertices;
    colors := [];
    var i := 0;
    while 3 * i < |mesh|  // i < mesh.length / 3
      invariant i <= vertices
      invariant colors == Repeat(gridColor, i)
    {
      colors := colors + [gridColor.r, gridColor.g, gridColor.b];
      i := i + 1;
    }
    RepeatAt(gridColor, i);
    GridMeshWhole(rowSpacing, columnSpacing);
  }

  // ---------------------------------------------------------------------------
  // Properties of the grid

  /** The loop count is the ceiling of (bound - from) / spacing: the last step is below the bound, the next is not. */
  lemma {:induction false} LineCountIsCeiling(spacing: nat, from: int, bound: int)
    requires spacing > 0
    ensures from >= bound ==> LineCount(spacing, from, bound) == 0
    ensures from < bound ==>
      from + (LineCount(spacing, from, bound) - 1) * spacing < bound <= from + LineCount(spacing, from, bound) * spacing
    decreases bound - from
  {
    if from < bound {
      var l := LineCount(spacing, from + spacing, bound);
      LineCountIsCeiling(spacing, from + spacing, bound);
      assert (l + 1) * spacing == l * spacing + spacing;
      if l > 0 {
        assert l * spacing == (l - 1) * spacing + spacing;
      }
    }
  }

  /** With spacing 1 the loop runs once per integer in [from, bound). */
  lemma {:induction false} UnitLineCount(from: int, bound: int)
    requires from <= bound
    ensures LineCount(1, from, bound) == bound - from
    decreases bound - from
  {
    if from < bound {
      UnitLineCount(from + 1, bound);
    }
  }

  /**
   * Row j, counted from x, is the segment from (x + j*s, 0, -1000) to
   * (x + j*s, 0, 1000); there are LineCount of them, six floats each.
   */
  lemma {:induction false} RowsAt(spacing: nat, x: int, j: nat)
    requires spacing > 0 && j < LineCount(spacing, x, GridXRange)
    ensures |Rows(spacing, x)| == 6 * LineCount(spacing, x, GridXRange)
    ensures PointAt(Rows(spacing, x), 2 * j) == Point((x + j * spacing) as real, 0.0, -GridZRange as real)
    ensures PointAt(Rows(spacing, x), 2 * j + 1) == Point((x + j * spacing) as real, 0.0, GridZRange as real)
    decreases j
  {
    RowsLength(spacing, x);
    if j > 0 {
      RowsAt(spacing, x + spacing, j - 1);
      assert x + spacing + (j - 1) * spacing == x + j * spacing;
    }
  }

  /** Column j is the segment from (-1000, 0, z + j*s) to (1000, 0, z + j*s). */
  lemma {:induction false} ColumnsAt(spacing: nat, z: int, j: nat)
    requires spacing > 0 && j < LineCount(spacing, z, GridZRange)
    ensures |Columns(spacing, z)| == 6 * LineCount(spacing, z, GridZRange)
    ensures PointAt(Columns(spacing, z), 2 * j) == Point(-GridXRange as real, 0.0, (z + j * spacing) as real)
    ensures PointAt(Columns(spacing, z), 2 * j + 1) == Point(GridXRange as real, 0.0, (z + j * spacing) as real)
    decreases j
  {
    ColumnsLength(spacing, z);
    if j > 0 {
      ColumnsAt(spacing, z + spacing, j - 1);
      assert z + spacing + (j - 1) * spacing == z + j * spacing;
    }
  }

  lemma {:induction false} RowsLength(spacing: nat, x: int)
    requires spacing > 0
    ensures |Rows(spacing, x)| == 6 * LineCount(spacing, x, GridXRange)
    decreases GridXRange - x
  {
    if x < GridXRange {
      RowsLength(spacing, x + spacing);
    }
  }

  lemma {:induction false} ColumnsLength(spacing: nat, z: int)
    requires spacing > 0
    ensures |Columns(spacing, z)| == 6 * LineCount(spacing, z, GridZRange)
    decreases GridZRange - z
  {
    if z < GridZRange {
      ColumnsLength(spacing, z + spacing);
    }
  }

  /** Two vertices per row and per column; with spacing 1 that is 8000 vertices. */
  lemma GridMeshLength(rowSpacing: nat, columnSpacing: nat)
    requires rowSpacing > 0 && columnSpacing > 0
    ensures |GridMesh(rowSpacing, columnSpacing)|
         == 6 * (LineCount(rowSpacing, -GridXRange, GridXRange) + LineCount(columnSpacing, -GridZRange, GridZRange))
    ensures rowSpacing == 1 && columnSpacing == 1 ==> |GridMesh(rowSpacing, columnSpacing)| == 3 * 8000
  {
    RowsLength(rowSpacing, -GridXRange);
    ColumnsLength(columnSpacing, -GridZRange);
    if rowSpacing == 1 && columnSpacing == 1 {
      UnitLineCount(-GridXRange, GridXRange);
      UnitLineCount(-GridZRange, GridZRange);
    }
  }

  /** The grid mesh holds whole vertices. */
  lemma GridMeshWhole(rowSpacing: nat, columnSpacing: nat)
    requires rowSpacing > 0 && columnSpacing > 0
    ensures |GridMesh(rowSpacing, columnSpacing)| % 3 == 0
  {
    GridMeshLength(rowSpacing, columnSpacing);
    var v := 2 * (LineCount(rowSpacing, -GridXRange, GridXRange) + LineCount(columnSpacing, -GridZRange, GridZRange));
    assert |GridMesh(rowSpacing, columnSpacing)| == 3 * v;
  }

  /** The grid mesh starts with the row segments: row j's endpoints are vertices 2j and 2j + 1. */
  lemma GridMeshRowAt(rowSpacing: nat, columnSpacing: nat, j: nat)
    requires rowSpacing > 0 && columnSpacing > 0
    requires j < LineCount(rowSpacing, -GridXRange, GridXRange)
    ensures 6 * j + 6 <= |GridMesh(rowSpacing, columnSpacing)|
    ensures PointAt(GridMesh(rowSpacing, columnSpacing), 2 * j)
         == Point((-GridXRange + j * rowSpacing) as real, 0.0, -GridZRange as real)
    ensures PointAt(GridMesh(rowSpacing, columnSpacing), 2 * j + 1)
         == Point((-GridXRange + j * rowSpacing) as real, 0.0, GridZRange as real)
  {
    var rows := Rows(rowSpacing, -GridXRange);
    var cols := Columns(columnSpacing, -GridZRange);
    RowsAt(rowSpacing, -GridXRange, j);
    PointAtLeft(rows, cols, 2 * j);
    PointAtLeft(rows, cols, 2 * j + 1);
  }

  /** After the 2 * rows row endpoints come the column segments: column j's endpoints follow. */
  lemma GridMeshColumnAt(rowSpacing: nat, columnSpacing: nat, j: nat)
    requires rowSpacing > 0 && columnSpacing > 0
    requires j < LineCount(columnSpacing, -GridZRange, GridZRange)
    ensures var r := LineCount(rowSpacing, -GridXRange, GridXRange);
      6 * (r + j) + 6 <= |GridMesh(rowSpacing, columnSpacing)| &&
      PointAt(GridMesh(rowSpacing, columnSpacing), 2 * r + 2 * j)
        == Point(-GridXRange as real, 0.0, (-GridZRange + j * columnSpacing) as real) &&
      PointAt(GridMesh(rowSpacing, columnSpacing), 2 * r + 2 * j + 1)
        == Point(GridXRange as real, 0.0, (-GridZRange + j * columnSpacing) as real)
  {
    var r := LineCount(rowSpacing, -GridXRange, GridXRange);
    var rows := Rows(rowSpacing, -GridXRange);
    var cols := Columns(columnSpacing, -GridZRange);
    RowsLength(rowSpacing, -GridXRange);
    ColumnsAt(columnSpacing, -GridZRange, j);
    PointAtRight(rows, cols, 2 * r, 2 * j);
    PointAtRight(rows, cols, 2 * r, 2 * j + 1);
  }

  lemma PointAtLeft(a: seq<real>, b: seq<real>, k: nat)
    requires 3 * k + 3 <= |a|
    ensures PointAt(a + b, k) == PointAt(a, k)
  {
  }

  lemma PointAtRight(a: seq<real>, b: seq<real>, j: nat, u: nat)
    requires |a| == 3 * j && 3 * u + 3 <= |b|
    ensures PointAt(a + b, j + u) == PointAt(b, u)
  {
  }

  /** The colour list holds k copies of the grid colour and nothing else. */
  lemma {:induction false} RepeatAt(c: Rgb, k: nat)
    ensures |Repeat(c, k)| == 3 * k
    ensures forall j :: 0 <= j < k ==> TripleAt(Repeat(c, k), j) == c
  {
    if k > 0 {
      RepeatAt(c, k - 1);
      assert forall j :: 0 <= j < k - 1 ==> TripleAt(Repeat(c, k), j) == TripleAt(Repeat(c, k - 1), j);
    }
  }
}
