/** The plane primitive (src/lib/geometry/primitives/Plane.ts): a width x height rectangle in
    the z = 0 plane, cut into gridX x gridY cells, with (gridX + 1)·(gridY + 1) vertices listed
    row by row from the top edge and two triangles per cell.

    The buffers are flat: three position, three normal and two uv components per vertex, six
    indices per cell. The specification functions list them the way the loops push them: row
    by row, and within a row column by column. Vertex v = iy·(gridX + 1) + ix is the one in
    column ix and row iy; cell c = iy·gridX + ix the one in column ix and row iy. The lemmas
    say what each buffer holds at those positions. */
module Planes {

  /** `Float32Attribute(values, itemSize)` and `Int32Attribute(values, itemSize)`. */
  datatype Float32Attribute = Float32Attribute(values: seq<real>, itemSize: nat)
  datatype Int32Attribute = Int32Attribute(values: seq<int>, itemSize: nat)

  /** The `Geometry` the plane builds: an index attribute and named vertex attributes. */
  datatype Geometry = Geometry(indices: Int32Attribute, attributes: map<string, Float32Attribute>)

  function VertexCount(gridX: nat, gridY: nat): nat {
    (gridX + 1) * (gridY + 1)
  }

  // ---------------------------------------------------------------------------------------
  // The buffers, row by row

  /** The position of the vertex in column ix and row iy: (x, -y, 0) with
      x = ix·segmentWidth - width/2 and y = iy·segmentHeight - height/2. */
  function VertexPosition(width: real, height: real, gridX: nat, gridY: nat, ix: nat, iy: nat): seq<real>
    requires gridX >= 1 && gridY >= 1
  {
    [ix as real * (width / gridX as real) - width / 2.0, -(iy as real * (height / gridY as real) - height / 2.0), 0.0]
  }

  /** The uv of the vertex in column ix and row iy. */
  function VertexUv(gridX: nat, gridY: nat, ix: nat, iy: nat): seq<real>
    requires gridX >= 1 && gridY >= 1
  {
    [ix as real / gridX as real, 1.0 - iy as real / gridY as real]
  }

  const VertexNormal: seq<real> := [0.0, 0.0, 1.0]

  /** The six indices of cell (ix, iy): with a = ix + (gridX + 1)·iy and d = a + 1 on its top
      edge and b = a + gridX + 1, c = b + 1 below them, the triangles (a, b, d) and (b, c, d). */
  function CellIndices(gridX: nat, ix: nat, iy: nat): seq<int> {
    var a := ix + (gridX + 1) * iy;
    var b := ix + (gridX + 1) * (iy + 1);
    var c := ix + 1 + (gridX + 1) * (iy + 1);
    var d := ix + 1 + (gridX + 1) * iy;
    [a, b, d, b, c, d]
  }

  /** Positions of the first `columns` vertices of row iy. */
  function PositionRow(width: real, height: real, gridX: nat, gridY: nat, iy: nat, columns: nat): (r: seq<real>)
    requires gridX >= 1 && gridY >= 1
    ensures |r| == 3 * columns
  {
    if columns == 0 then []
    else PositionRow(width, height, gridX, gridY, iy, columns - 1) + VertexPosition(width, height, gridX, gridY, columns - 1, iy)
  }

  /** Positions of the first `rows` rows. */
  function Positions(width: real, height: real, gridX: nat, gridY: nat, rows: nat): seq<real>
    requires gridX >= 1 && gridY >= 1
  {
    if rows == 0 then []
    else Positions(width, height, gridX, gridY, rows - 1) + PositionRow(width, height, gridX, gridY, rows - 1, gridX + 1)
  }

  function NormalRow(columns: nat): (r: seq<real>)
    ensures |r| == 3 * columns
  {
    if columns == 0 then [] else NormalRow(columns - 1) + VertexNormal
  }

  function Normals(gridX: nat, rows: nat): seq<real>
  {
    if rows == 0 then [] else Normals(gridX, rows - 1) + NormalRow(gridX + 1)
  }

  function UvRow(gridX: nat, gridY: nat, iy: nat, columns: nat): (r: seq<real>)
    requires gridX >= 1 && gridY >= 1
    ensures |r| == 2 * columns
  {
    if columns == 0 then [] else UvRow(gridX, gridY, iy, columns - 1) + VertexUv(gridX, gridY, columns - 1, iy)
  }

  function Uvs(gridX: nat, gridY: nat, rows: nat): seq<real>
    requires gridX >= 1 && gridY >= 1
  {
    if rows == 0 then [] else Uvs(gridX, gridY, rows - 1) + UvRow(gridX, gridY, rows - 1, gridX + 1)
  }

  function IndexRow(gridX: nat, iy: nat, columns: nat): (r: seq<int>)
    ensures |r| == 6 * columns
  {
    if columns == 0 then [] else IndexRow(gridX, iy, columns - 1) + CellIndices(gridX, columns - 1, iy)
  }

  function Indices(gridX: nat, rows: nat): seq<int>
  {
    if rows == 0 then [] else Indices(gridX, rows - 1) + IndexRow(gridX, rows - 1, gridX)
  }

  // ---------------------------------------------------------------------------------------
  // Arithmetic and slices

  lemma {:induction false} MulMonotone(a: nat, b: nat, c: nat)
    requires b <= c
    ensures a * b <= a * c
  {
    assert a * c - a * b == a * (c - b);
  }

  lemma SliceOfAppend<T>(a: seq<T>, b: seq<T>, i: nat, j: nat)
    requires i <= j <= |b|
    ensures (a + b)[|a| + i .. |a| + j] == b[i..j]
  {
    assert forall k | 0 <= k < j - i :: (a + b)[|a| + i .. |a| + j][k] == b[i..j][k];
  }

  lemma SliceOfPrefix<T>(a: seq<T>, b: seq<T>, i: nat, j: nat)
    requires i <= j <= |a|
    ensures (a + b)[i..j] == a[i..j]
  {
    assert forall k | 0 <= k < j - i :: (a + b)[i..j][k] == a[i..j][k];
  }

  /** The buffers hold 3, 3, 2 and 6 numbers per vertex or cell of the rows listed. */
  lemma {:induction false} PositionsLength(width: real, height: real, gridX: nat, gridY: nat, rows: nat)
    requires gridX >= 1 && gridY >= 1
    ensures |Positions(width, height, gridX, gridY, rows)| == 3 * ((gridX + 1) * rows)
    decreases rows
  {
    if rows > 0 {
      PositionsLength(width, height, gridX, gridY, rows - 1);
      assert (gridX + 1) * rows == (gridX + 1) * (rows - 1) + gridX + 1;
    }
  }

  lemma {:induction false} NormalsLength(gridX: nat, rows: nat)
    ensures |Normals(gridX, rows)| == 3 * ((gridX + 1) * rows)
    decreases rows
  {
    if rows > 0 {
      NormalsLength(gridX, rows - 1);
      assert (gridX + 1) * rows == (gridX + 1) * (rows - 1) + gridX + 1;
    }
  }

  lemma {:induction false} UvsLength(gridX: nat, gridY: nat, rows: nat)
    requires gridX >= 1 && gridY >= 1
    ensures |Uvs(gridX, gridY, rows)| == 2 * ((gridX + 1) * rows)
    decreases rows
  {
    if rows > 0 {
      UvsLength(gridX, gridY, rows - 1);
      assert (gridX + 1) * rows == (gridX + 1) * (rows - 1) + gridX + 1;
    }
  }

  lemma {:induction false} IndicesLength(gridX: nat, rows: nat)
    ensures |Indices(gridX, rows)| == 6 * (gridX * rows)
    decreases rows
  {
    if rows > 0 {
      IndicesLength(gridX, rows - 1);
      assert gridX * rows == gridX * (rows - 1) + gridX;
    }
  }

  /** A sequence that begins with a keeps a's slices. */
  lemma PrefixSlice<T>(a: seq<T>, b: seq<T>, i: nat, j: nat)
    requires a <= b && i <= j <= |a|
    ensures b[i..j] == a[i..j]
  {
  }

  /** The buffers of the first r rows are prefixes of those of more rows. */
  lemma {:induction false} PositionsPrefix(width: real, height: real, gridX: nat, gridY: nat, r: nat, rows: nat)
    requires gridX >= 1 && gridY >= 1 && r <= rows
    ensures Positions(width, height, gridX, gridY, r) <= Positions(width, height, gridX, gridY, rows)
    decreases rows
  {
    if r < rows {
      PositionsPrefix(width, height, gridX, gridY, r, rows - 1);
    }
  }

  lemma {:induction false} NormalsPrefix(gridX: nat, r: nat, rows: nat)
    requires r <= rows
    ensures Normals(gridX, r) <= Normals(gridX, rows)
    decreases rows
  {
    if r < rows {
      NormalsPrefix(gridX, r, rows - 1);
    }
  }

  lemma {:induction false} UvsPrefix(gridX: nat, gridY: nat, r: nat, rows: nat)
    requires gridX >= 1 && gridY >= 1 && r <= rows
    ensures Uvs(gridX, gridY, r) <= Uvs(gridX, gridY, rows)
    decreases rows
  {
    if r < rows {
      UvsPrefix(gridX, gridY, r, rows - 1);
    }
  }

  lemma {:induction false} IndicesPrefix(gridX: nat, r: nat, rows: nat)
    requires r <= rows
    ensures Indices(gridX, r) <= Indices(gridX, rows)
    decreases rows
  {
    if r < rows {
      IndicesPrefix(gridX, r, rows - 1);
    }
  }

  // ---------------------------------------------------------------------------------------
  // What the buffers hold, vertex by vertex

  /** The three position components of vertex v, in column ix and row iy. */
  lemma {:induction false} PositionRowAt(width: real, height: real, gridX: nat, gridY: nat, iy: nat, columns: nat, ix: nat)
    requires gridX >= 1 && gridY >= 1 && ix < columns
    ensures PositionRow(width, height, gridX, gridY, iy, columns)[3 * ix .. 3 * ix + 3]
         == VertexPosition(width, height, gridX, gridY, ix, iy)
    decreases columns
  {
    var front := PositionRow(width, height, gridX, gridY, iy, columns - 1);
    var last := VertexPosition(width, height, gridX, gridY, columns - 1, iy);
    if ix == columns - 1 {
      SliceOfAppend(front, last, 0, 3);
    } else {
      PositionRowAt(width, height, gridX, gridY, iy, columns - 1, ix);
      SliceOfPrefix(front, last, 3 * ix, 3 * ix + 3);
    }
  }

  /** The position of vertex v, in column ix and row iy. */
  lemma {:induction false} PositionsAt(width: real, height: real, gridX: nat, gridY: nat, rows: nat, ix: nat, iy: nat, v: nat)
    requires gridX >= 1 && gridY >= 1 && ix <= gridX && iy < rows && v == iy * (gridX + 1) + ix
    ensures 3 * v + 3 <= |Positions(width, height, gridX, gridY, rows)|
         && Positions(width, height, gridX, gridY, rows)[3 * v .. 3 * v + 3]
         == VertexPosition(width, height, gridX, gridY, ix, iy)
  {
    var front := Positions(width, height, gridX, gridY, iy);
    var row := PositionRow(width, height, gridX, gridY, iy, gridX + 1);
    PositionsLength(width, height, gridX, gridY, iy);
    assert 3 * v == |front| + 3 * ix;
    PositionRowAt(width, height, gridX, gridY, iy, gridX + 1, ix);
    SliceOfAppend(front, row, 3 * ix, 3 * ix + 3);
    PositionsPrefix(width, height, gridX, gridY, iy + 1, rows);
    PrefixSlice(front + row, Positions(width, height, gridX, gridY, rows), 3 * v, 3 * v + 3);
  }

  lemma {:induction false} NormalRowAt(columns: nat, ix: nat)
    requires ix < columns
    ensures NormalRow(columns)[3 * ix .. 3 * ix + 3] == VertexNormal
    decreases columns
  {
    if ix == columns - 1 {
      SliceOfAppend(NormalRow(columns - 1), VertexNormal, 0, 3);
    } else {
      NormalRowAt(columns - 1, ix);
      SliceOfPrefix(NormalRow(columns - 1), VertexNormal, 3 * ix, 3 * ix + 3);
    }
  }

  /** Every normal is (0, 0, 1). */
  lemma {:induction false} NormalsAt(gridX: nat, rows: nat, ix: nat, iy: nat, v: nat)
    requires ix <= gridX && iy < rows && v == iy * (gridX + 1) + ix
    ensures 3 * v + 3 <= |Normals(gridX, rows)| && Normals(gridX, rows)[3 * v .. 3 * v + 3] == [0.0, 0.0, 1.0]
  {
    var front, row := Normals(gridX, iy), NormalRow(gridX + 1);
    NormalsLength(gridX, iy);
    assert 3 * v == |front| + 3 * ix;
    NormalRowAt(gridX + 1, ix);
    SliceOfAppend(front, row, 3 * ix, 3 * ix + 3);
    NormalsPrefix(gridX, iy + 1, rows);
    PrefixSlice(front + row, Normals(gridX, rows), 3 * v, 3 * v + 3);
  }

  lemma {:induction false} UvRowAt(gridX: nat, gridY: nat, iy: nat, columns: nat, ix: nat)
    requires gridX >= 1 && gridY >= 1 && ix < columns
    ensures UvRow(gridX, gridY, iy, columns)[2 * ix .. 2 * ix + 2] == VertexUv(gridX, gridY, ix, iy)
    decreases columns
  {
    var front, last := UvRow(gridX, gridY, iy, columns - 1), VertexUv(gridX, gridY, columns - 1, iy);
    if ix == columns - 1 {
      SliceOfAppend(front, last, 0, 2);
    } else {
      UvRowAt(gridX, gridY, iy, columns - 1, ix);
      SliceOfPrefix(front, last, 2 * ix, 2 * ix + 2);
    }
  }

  /** The uv of vertex v, in column ix and row iy: (ix / gridX, 1 - iy / gridY). */
  lemma {:induction false} UvsAt(gridX: nat, gridY: nat, rows: nat, ix: nat, iy: nat, v: nat)
    requires gridX >= 1 && gridY >= 1 && ix <= gridX && iy < rows && v == iy * (gridX + 1) + ix
    ensures 2 * v + 2 <= |Uvs(gridX, gridY, rows)| && Uvs(gridX, gridY, rows)[2 * v .. 2 * v + 2] == VertexUv(gridX, gridY, ix, iy)
  {
    var front, row := Uvs(gridX, gridY, iy), UvRow(gridX, gridY, iy, gridX + 1);
    UvsLength(gridX, gridY, iy);
    assert 2 * v == |front| + 2 * ix;
    UvRowAt(gridX, gridY, iy, gridX + 1, ix);
    SliceOfAppend(front, row, 2 * ix, 2 * ix + 2);
    UvsPrefix(gridX, gridY, iy + 1, rows);
    PrefixSlice(front + row, Uvs(gridX, gridY, rows), 2 * v, 2 * v + 2);
  }

  lemma {:induction false} IndexRowAt(gridX: nat, iy: nat, columns: nat, ix: nat)
    requires ix < columns
    ensures IndexRow(gridX, iy, columns)[6 * ix .. 6 * ix + 6] == CellIndices(gridX, ix, iy)
    decreases columns
  {
    var front, last := IndexRow(gridX, iy, columns - 1), CellIndices(gridX, columns - 1, iy);
    if ix == columns - 1 {
      SliceOfAppend(front, last, 0, 6);
    } else {
      IndexRowAt(gridX, iy, columns - 1, ix);
      SliceOfPrefix(front, last, 6 * ix, 6 * ix + 6);
    }
  }

  /** The six indices of cell c, in column ix and row iy: cells are emitted row by row. */
  lemma {:induction false} IndicesAt(gridX: nat, rows: nat, ix: nat, iy: nat, c: nat)
    requires ix < gridX && iy < rows && c == iy * gridX + ix
    ensures 6 * c + 6 <= |Indices(gridX, rows)| && Indices(gridX, rows)[6 * c .. 6 * c + 6] == CellIndices(gridX, ix, iy)
  {
    var front, row := Indices(gridX, iy), IndexRow(gridX, iy, gridX);
    IndicesLength(gridX, iy);
    assert 6 * c == |front| + 6 * ix;
    IndexRowAt(gridX, iy, gridX, ix);
    SliceOfAppend(front, row, 6 * ix, 6 * ix + 6);
    IndicesPrefix(gridX, iy + 1, rows);
    PrefixSlice(front + row, Indices(gridX, rows), 6 * c, 6 * c + 6);
  }

  // ---------------------------------------------------------------------------------------
  // Bounds

  /** Every index of a cell in the grid names one of the (gridX + 1)·(gridY + 1) vertices. */
  lemma {:induction false} CellIndicesInRange(gridX: nat, gridY: nat, ix: nat, iy: nat)
    requires ix < gridX && iy < gridY
    ensures forall k | 0 <= k < 6 :: 0 <= CellIndices(gridX, ix, iy)[k] < VertexCount(gridX, gridY)
  {
    MulMonotone(gridX + 1, iy + 1, gridY);
    assert ix + 1 + (gridX + 1) * (iy + 1) <= gridX + (gridX + 1) * gridY;
    assert VertexCount(gridX, gridY) == (gridX + 1) * gridY + gridX + 1;
  }

  lemma {:induction false} IndexRowInRange(gridX: nat, gridY: nat, iy: nat, columns: nat)
    requires columns <= gridX && iy < gridY
    ensures forall k | 0 <= k < |IndexRow(gridX, iy, columns)| :: 0 <= IndexRow(gridX, iy, columns)[k] < VertexCount(gridX, gridY)
    decreases columns
  {
    if columns > 0 {
      IndexRowInRange(gridX, gridY, iy, columns - 1);
      CellIndicesInRange(gridX, gridY, columns - 1, iy);
    }
  }

  /** Every index in the first `rows` rows of cells (rows <= gridY) names a vertex. */
  lemma {:induction false} IndicesInRange(gridX: nat, gridY: nat, rows: nat)
    requires rows <= gridY
    ensures forall k | 0 <= k < |Indices(gridX, rows)| :: 0 <= Indices(gridX, rows)[k] < VertexCount(gridX, gridY)
    decreases rows
  {
    if rows > 0 {
      IndicesInRange(gridX, gridY, rows - 1);
      IndexRowInRange(gridX, gridY, rows - 1, gridX);
    }
  }

  lemma UnitFraction(a: real, b: real)
    requires 0.0 <= a <= b && b > 0.0
    ensures 0.0 <= a / b <= 1.0
  {
  }

  lemma {:induction false} UvRowInUnitSquare(gridX: nat, gridY: nat, iy: nat, columns: nat)
    requires gridX >= 1 && gridY >= 1 && columns <= gridX + 1 && iy <= gridY
    ensures forall k | 0 <= k < |UvRow(gridX, gridY, iy, columns)| :: 0.0 <= UvRow(gridX, gridY, iy, columns)[k] <= 1.0
    decreases columns
  {
    if columns > 0 {
      UvRowInUnitSquare(gridX, gridY, iy, columns - 1);
      UnitFraction((columns - 1) as real, gridX as real);
      UnitFraction(iy as real, gridY as real);
    }
  }

  /** Every uv component of the first `rows` rows (rows <= gridY + 1) lies in [0, 1]. */
  lemma {:induction false} UvsInUnitSquare(gridX: nat, gridY: nat, rows: nat)
    requires gridX >= 1 && gridY >= 1 && rows <= gridY + 1
    ensures forall k | 0 <= k < |Uvs(gridX, gridY, rows)| :: 0.0 <= Uvs(gridX, gridY, rows)[k] <= 1.0
    decreases rows
  {
    if rows > 0 {
      UvsInUnitSquare(gridX, gridY, rows - 1);
      UvRowInUnitSquare(gridX, gridY, rows - 1, gridX + 1);
    }
  }

  /** A vertex's position is its uv mapped onto the rectangle: x = (u - 1/2)·width and
      y = (v - 1/2)·height; the top-left vertex, with uv (0, 1), is at (-width/2, height/2). */
  lemma PositionFromUv(width: real, height: real, gridX: nat, gridY: nat, ix: nat, iy: nat)
    requires gridX >= 1 && gridY >= 1
    ensures VertexPosition(width, height, gridX, gridY, ix, iy)[0] == (VertexUv(gridX, gridY, ix, iy)[0] - 0.5) * width
    ensures VertexPosition(width, height, gridX, gridY, ix, iy)[1] == (VertexUv(gridX, gridY, ix, iy)[1] - 0.5) * height
  {
    FractionAcross(ix as real, gridX as real, width, VertexUv(gridX, gridY, ix, iy)[0]);
    FractionDown(iy as real, gridY as real, height, VertexUv(gridX, gridY, ix, iy)[1]);
  }

  lemma FractionAcross(i: real, count: real, size: real, u: real)
    requires count > 0.0 && u == i / count
    ensures i * (size / count) - size / 2.0 == (u - 0.5) * size
  {
    assert i * (size / count) == (i / count) * size;
  }

  lemma FractionDown(i: real, count: real, size: real, u: real)
    requires count > 0.0 && u == 1.0 - i / count
    ensures -(i * (size / count) - size / 2.0) == (u - 0.5) * size
  {
    assert i * (size / count) == (i / count) * size;
  }

  /** The coordinates the loop computes from segmentWidth and segmentHeight are the vertex's
      position. */
  lemma VertexCoordinates(width: real, height: real, gridX: nat, gridY: nat, ix: nat, iy: nat,
                          segmentWidth: real, segmentHeight: real, x: real, y: real)
    requires gridX >= 1 && gridY >= 1
    requires segmentWidth == width / gridX as real && segmentHeight == height / gridY as real
    requires x == ix as real * segmentWidth - width / 2.0 && y == iy as real * segmentHeight - height / 2.0
    ensures VertexPosition(width, height, gridX, gridY, ix, iy) == [x, -y, 0.0]
  {
    assert VertexPosition(width, height, gridX, gridY, ix, iy)[0] == x;
    assert VertexPosition(width, height, gridX, gridY, ix, iy)[1] == -y;
  }

  // ---------------------------------------------------------------------------------------
  // plane

  /** `plane(width, height, widthSegments, heightSegments)` with whole, positive segment
      counts: the nested loops push the vertex data row by row, then the indices cell by cell
      (the two loop nests are the methods below), and the buffers become the geometry's
      attributes: one position, normal and uv per vertex, six indices per cell, every index
      naming a vertex and every uv in the unit square. */
  method Plane(width: real := 1.0, height: real := 1.0, gridX: nat := 1, gridY: nat := 1) returns (g: Geometry)
    requires gridX >= 1 && gridY >= 1
    ensures g.indices == Int32Attribute(Indices(gridX, gridY), 1)
    ensures g.attributes.Keys == {"position", "normal", "uv"}
    ensures g.attributes["position"] == Float32Attribute(Positions(width, height, gridX, gridY, gridY + 1), 3)
    ensures g.attributes["normal"] == Float32Attribute(Normals(gridX, gridY + 1), 3)
    ensures g.attributes["uv"] == Float32Attribute(Uvs(gridX, gridY, gridY + 1), 2)
    ensures |g.indices.values| == 6 * (gridX * gridY)
    ensures |g.attributes["position"].values| == |g.attributes["normal"].values| == 3 * VertexCount(gridX, gridY)
    ensures |g.attributes["uv"].values| == 2 * VertexCount(gridX, gridY)
    ensures forall k | 0 <= k < |g.indices.values| :: 0 <= g.indices.values[k] < VertexCount(gridX, gridY)
    ensures forall k | 0 <= k < |g.attributes["uv"].values| :: 0.0 <= g.attributes["uv"].values[k] <= 1.0
  {
    var vertices, normals, uvs := PlaneVertices(width, height, gridX, gridY);
    var indices := PlaneIndices(gridX, gridY);
    PositionsLength(width, height, gridX, gridY, gridY + 1);
    NormalsLength(gridX, gridY + 1);
    UvsLength(gridX, gridY, gridY + 1);
    IndicesLength(gridX, gridY);
    IndicesInRange(gridX, gridY, gridY);
    UvsInUnitSquare(gridX, gridY, gridY + 1);
    var position, normal, uv := Float32Attribute(vertices, 3), Float32Attribute(normals, 3), Float32Attribute(uvs, 2);
    var attributes := map["position" := position, "normal" := normal, "uv" := uv];
    assert attributes["position"] == position && attributes["normal"] == normal && attributes["uv"] == uv;
    g := Geometry(Int32Attribute(indices, 1), attributes);
  }

  /** The first loop nest of `plane`: for every row iy and column ix, push the position
      (x, -y, 0), the normal (0, 0, 1) and the uv (ix / gridX, 1 - iy / gridY). */
  method PlaneVertices(width: real, height: real, gridX: nat, gridY: nat)
    returns (vertices: seq<real>, normals: seq<real>, uvs: seq<real>)
    requires gridX >= 1 && gridY >= 1
    ensures vertices == Positions(width, height, gridX, gridY, gridY + 1)
    ensures normals == Normals(gridX, gridY + 1)
    ensures uvs == Uvs(gridX, gridY, gridY + 1)
  {
    var widthHalf := width / 2.0;
    var heightHalf := height / 2.0;
    var gridX1 := gridX + 1;
    var gridY1 := gridY + 1;
    var segmentWidth := width / gridX as real;
    var segmentHeight := height / gridY as real;
    vertices, normals, uvs := [], [], [];
    for iy := 0 to gridY1
      invariant vertices == Positions(width, height, gridX, gridY, iy)
      invariant normals == Normals(gridX, iy) && uvs == Uvs(gridX, gridY, iy)
    {
      var y := iy as real * segmentHeight - heightHalf;
      for ix := 0 to gridX1
        invariant vertices == Positions(width, height, gridX, gridY, iy) + PositionRow(width, height, gridX, gridY, iy, ix)
        invariant normals == Normals(gridX, iy) + NormalRow(ix)
        invariant uvs == Uvs(gridX, gridY, iy) + UvRow(gridX, gridY, iy, ix)
      {
        var x := ix as real * segmentWidth - widthHalf;
        VertexCoordinates(width, height, gridX, gridY, ix, iy, segmentWidth, segmentHeight, x, y);
        vertices := vertices + [x, -y, 0.0];
        normals := normals + [0.0, 0.0, 1.0];
        uvs := uvs + [ix as real / gridX as real];
        uvs := uvs + [1.0 - iy as real / gridY as real];
      }
    }
  }

  /** The second loop nest of `plane`: for every cell, row by row, push (a, b, d) and then
      (b, c, d). */
  method PlaneIndices(gridX: nat, gridY: nat) returns (indices: seq<int>)
    ensures indices == Indices(gridX, gridY)
  {
    var gridX1 := gridX + 1;
    indices := [];
    for iy := 0 to gridY
      invariant indices == Indices(gridX, iy)
    {
      for ix := 0 to gridX
        invariant indices == Indices(gridX, iy) + IndexRow(gridX, iy, ix)
      {
        var a := ix + gridX1 * iy;
        var b := ix + gridX1 * (iy + 1);
        var c := ix + 1 + gridX1 * (iy + 1);
        var d := ix + 1 + gridX1 * iy;
        indices := indices + [a, b, d];
        indices := indices + [b, c, d];
      }
    }
  }
}
