/** 3x3 matrix functions over column-major element arrays (src/lib/math/Matrix3.Functions.ts).

    Arithmetic is over `real`: the facts proved here are the exact algebra that the
    floating-point code approximates. Matrix3.ts is not part of this model. Its constructor is
    taken to give the identity, its `copy` to copy the nine elements, and its `set` to take its
    arguments row by row as in three.js; the determinant facts also hold for the
    column-by-column reading.

    The algebra is argued through rows, columns, dot and cross products, so that every proof
    step is a small fact about three-component vectors. */
module Matrix3Functions {
  import opened Wrappers
  import opened WebGL

  /** A 3x3 matrix as a value: nRC is the entry in row R and column C, and the fields are listed
      in the order of the column-major `elements` array. */
  datatype M3 = M3(
    n11: real, n21: real, n31: real,
    n12: real, n22: real, n32: real,
    n13: real, n23: real, n33: real)

  /** A three-component vector: a point in homogeneous plane coordinates (w = 1 for a
      position), or a row or column of a matrix. */
  datatype Point3 = Point3(x: real, y: real, w: real)

  const Identity := M3(1.0, 0.0, 0.0, 0.0, 1.0, 0.0, 0.0, 0.0, 1.0)

  // ---------------------------------------------------------------------------------------
  // Vectors

  function Dot(p: Point3, q: Point3): real {
    p.x * q.x + p.y * q.y + p.w * q.w
  }

  function Cross(u: Point3, v: Point3): Point3 {
    Point3(u.y * v.w - u.w * v.y, u.w * v.x - u.x * v.w, u.x * v.y - u.y * v.x)
  }

  function ScaledPoint(p: Point3, k: real): Point3 {
    Point3(p.x * k, p.y * k, p.w * k)
  }

  /** x·c1 + y·c2 + w·c3: the combination of three vectors with the coefficients of p. */
  function Combination(c1: Point3, c2: Point3, c3: Point3, p: Point3): Point3 {
    Point3(c1.x * p.x + c2.x * p.y + c3.x * p.w,
           c1.y * p.x + c2.y * p.y + c3.y * p.w,
           c1.w * p.x + c2.w * p.y + c3.w * p.w)
  }

  lemma DotSymmetric(p: Point3, q: Point3)
    ensures Dot(p, q) == Dot(q, p)
  {
  }

  lemma DotScaled(p: Point3, q: Point3, k: real)
    ensures Dot(p, ScaledPoint(q, k)) == Dot(p, q) * k
    ensures Dot(ScaledPoint(p, k), q) == Dot(p, q) * k
  {
  }

  lemma DotCombination(r: Point3, c1: Point3, c2: Point3, c3: Point3, p: Point3)
    ensures Dot(r, Combination(c1, c2, c3, p)) == Dot(r, c1) * p.x + Dot(r, c2) * p.y + Dot(r, c3) * p.w
  {
  }

  /** A cross product is orthogonal to both of its factors. */
  lemma CrossOrthogonal(u: Point3, v: Point3)
    ensures Dot(u, Cross(u, v)) == 0.0 && Dot(v, Cross(u, v)) == 0.0
  {
  }

  /** The triple product is invariant under cyclic shifts. */
  lemma TripleCyclic(u: Point3, v: Point3, w: Point3)
    ensures Dot(u, Cross(v, w)) == Dot(v, Cross(w, u))
  {
  }

  // ---------------------------------------------------------------------------------------
  // Rows, columns and entries

  function Row(m: M3, i: int): Point3
    requires 1 <= i <= 3
  {
    if i == 1 then Point3(m.n11, m.n12, m.n13)
    else if i == 2 then Point3(m.n21, m.n22, m.n23)
    else Point3(m.n31, m.n32, m.n33)
  }

  function Column(m: M3, j: int): Point3
    requires 1 <= j <= 3
  {
    if j == 1 then Point3(m.n11, m.n21, m.n31)
    else if j == 2 then Point3(m.n12, m.n22, m.n32)
    else Point3(m.n13, m.n23, m.n33)
  }

  function Component(p: Point3, j: int): real
    requires 1 <= j <= 3
  {
    if j == 1 then p.x else if j == 2 then p.y else p.w
  }

  /** The entry in row i and column j. */
  function Entry(m: M3, i: int, j: int): real
    requires 1 <= i <= 3 && 1 <= j <= 3
  {
    Component(Row(m, i), j)
  }

  /** The successor of a row or column index, cyclically. */
  function Next(i: int): int
    requires 1 <= i <= 3
  {
    if i == 3 then 1 else i + 1
  }

  lemma EntryOfColumn(m: M3, i: int, j: int)
    requires 1 <= i <= 3 && 1 <= j <= 3
    ensures Entry(m, i, j) == Component(Column(m, j), i)
  {
  }

  /** Two matrices with the same nine entries are the same matrix. */
  lemma EqualByEntries(p: M3, q: M3)
    requires forall i, j | 1 <= i <= 3 && 1 <= j <= 3 :: Entry(p, i, j) == Entry(q, i, j)
    ensures p == q
  {
    assert Entry(p, 1, 1) == Entry(q, 1, 1) && Entry(p, 1, 2) == Entry(q, 1, 2) && Entry(p, 1, 3) == Entry(q, 1, 3);
    assert Entry(p, 2, 1) == Entry(q, 2, 1) && Entry(p, 2, 2) == Entry(q, 2, 2) && Entry(p, 2, 3) == Entry(q, 2, 3);
    assert Entry(p, 3, 1) == Entry(q, 3, 1) && Entry(p, 3, 2) == Entry(q, 3, 2) && Entry(p, 3, 3) == Entry(q, 3, 3);
  }

  /** The matrix applied to a column vector: one dot product per row. */
  function Apply(m: M3, p: Point3): Point3 {
    Point3(Dot(Row(m, 1), p), Dot(Row(m, 2), p), Dot(Row(m, 3), p))
  }

  /** Applying a matrix combines its columns. */
  lemma ApplyByColumns(m: M3, p: Point3)
    ensures Apply(m, p) == Combination(Column(m, 1), Column(m, 2), Column(m, 3), p)
  {
  }

  /** Two matrices that transform every point alike are equal: the columns are the images of
      the axes. */
  lemma ApplyDetermines(p: M3, q: M3)
    requires Apply(p, Point3(1.0, 0.0, 0.0)) == Apply(q, Point3(1.0, 0.0, 0.0))
    requires Apply(p, Point3(0.0, 1.0, 0.0)) == Apply(q, Point3(0.0, 1.0, 0.0))
    requires Apply(p, Point3(0.0, 0.0, 1.0)) == Apply(q, Point3(0.0, 0.0, 1.0))
    ensures p == q
  {
    assert Apply(p, Point3(1.0, 0.0, 0.0)) == Column(p, 1);
    assert Apply(q, Point3(1.0, 0.0, 0.0)) == Column(q, 1);
    assert Apply(p, Point3(0.0, 1.0, 0.0)) == Column(p, 2);
    assert Apply(q, Point3(0.0, 1.0, 0.0)) == Column(q, 2);
    assert Apply(p, Point3(0.0, 0.0, 1.0)) == Column(p, 3);
    assert Apply(q, Point3(0.0, 0.0, 1.0)) == Column(q, 3);
  }

  // ---------------------------------------------------------------------------------------
  // makeMatrix3Concatenation

  /** `makeMatrix3Concatenation` as a value: the product a·b, entry by entry as the source
      writes it. */
  function Concatenation(a: M3, b: M3): M3 {
    M3(a.n11 * b.n11 + a.n12 * b.n21 + a.n13 * b.n31,
       a.n21 * b.n11 + a.n22 * b.n21 + a.n23 * b.n31,
       a.n31 * b.n11 + a.n32 * b.n21 + a.n33 * b.n31,
       a.n11 * b.n12 + a.n12 * b.n22 + a.n13 * b.n32,
       a.n21 * b.n12 + a.n22 * b.n22 + a.n23 * b.n32,
       a.n31 * b.n12 + a.n32 * b.n22 + a.n33 * b.n32,
       a.n11 * b.n13 + a.n12 * b.n23 + a.n13 * b.n33,
       a.n21 * b.n13 + a.n22 * b.n23 + a.n23 * b.n33,
       a.n31 * b.n13 + a.n32 * b.n23 + a.n33 * b.n33)
  }

  /** Every entry of a·b is a dot product of a row of a with a column of b. */
  lemma ConcatenationByDots(a: M3, b: M3)
    ensures Concatenation(a, b) == M3(
      Dot(Row(a, 1), Column(b, 1)), Dot(Row(a, 2), Column(b, 1)), Dot(Row(a, 3), Column(b, 1)),
      Dot(Row(a, 1), Column(b, 2)), Dot(Row(a, 2), Column(b, 2)), Dot(Row(a, 3), Column(b, 2)),
      Dot(Row(a, 1), Column(b, 3)), Dot(Row(a, 2), Column(b, 3)), Dot(Row(a, 3), Column(b, 3)))
  {
    var r1, r2, r3 := Row(a, 1), Row(a, 2), Row(a, 3);
    var c1, c2, c3 := Column(b, 1), Column(b, 2), Column(b, 3);
    assert r1 == Point3(a.n11, a.n12, a.n13) && r2 == Point3(a.n21, a.n22, a.n23) && r3 == Point3(a.n31, a.n32, a.n33);
    assert c1 == Point3(b.n11, b.n21, b.n31) && c2 == Point3(b.n12, b.n22, b.n32) && c3 == Point3(b.n13, b.n23, b.n33);
  }

  /** Row i of a·b, as dot products of row i of a with the columns of b. */
  lemma ConcatenationRow(a: M3, b: M3, i: int)
    requires 1 <= i <= 3
    ensures Row(Concatenation(a, b), i)
         == Point3(Dot(Row(a, i), Column(b, 1)), Dot(Row(a, i), Column(b, 2)), Dot(Row(a, i), Column(b, 3)))
  {
    ConcatenationByDots(a, b);
  }

  /** Entry (i, j) of a·b is row i of a dotted with column j of b. */
  lemma ConcatenationEntry(a: M3, b: M3, i: int, j: int)
    requires 1 <= i <= 3 && 1 <= j <= 3
    ensures Entry(Concatenation(a, b), i, j) == Dot(Row(a, i), Column(b, j))
  {
    ConcatenationRow(a, b, i);
  }

  /** The concatenation a·b transforms a point as b does and then a does. */
  lemma ConcatenationComposes(a: M3, b: M3, p: Point3)
    ensures Apply(Concatenation(a, b), p) == Apply(a, Apply(b, p))
  {
    ApplyByColumns(b, p);
    var c1, c2, c3 := Column(b, 1), Column(b, 2), Column(b, 3);
    ConcatenationRow(a, b, 1);
    ConcatenationRow(a, b, 2);
    ConcatenationRow(a, b, 3);
    DotCombination(Row(a, 1), c1, c2, c3, p);
    DotCombination(Row(a, 2), c1, c2, c3, p);
    DotCombination(Row(a, 3), c1, c2, c3, p);
  }

  /** The identity is neutral on both sides. */
  lemma ConcatenationIdentity(m: M3)
    ensures Concatenation(Identity, m) == m && Concatenation(m, Identity) == m
  {
  }

  /** Concatenation is associative. */
  lemma ConcatenationAssociative(a: M3, b: M3, c: M3)
    ensures Concatenation(Concatenation(a, b), c) == Concatenation(a, Concatenation(b, c))
  {
    var l, r := Concatenation(Concatenation(a, b), c), Concatenation(a, Concatenation(b, c));
    forall p: Point3
      ensures Apply(l, p) == Apply(r, p)
    {
      ConcatenationComposes(Concatenation(a, b), c, p);
      ConcatenationComposes(a, b, Apply(c, p));
      ConcatenationComposes(b, c, p);
      ConcatenationComposes(a, Concatenation(b, c), p);
    }
    ApplyDetermines(l, r);
  }

  // ---------------------------------------------------------------------------------------
  // matrix3Determinant and makeMatrix3Transpose

  /** `matrix3Determinant`: the cofactor expansion, over the elements in array order a to i. */
  function Determinant(m: M3): real {
    var a, b, c, d, e, f, g, h, i := m.n11, m.n21, m.n31, m.n12, m.n22, m.n32, m.n13, m.n23, m.n33;
    a * e * i - a * f * h - b * d * i + b * f * g + c * d * h - c * e * g
  }

  /** The determinant is the signed sum over the six permutations of the columns. */
  lemma DeterminantLeibniz(m: M3)
    ensures Determinant(m) ==
      m.n11 * m.n22 * m.n33 + m.n12 * m.n23 * m.n31 + m.n13 * m.n21 * m.n32
      - m.n13 * m.n22 * m.n31 - m.n12 * m.n21 * m.n33 - m.n11 * m.n23 * m.n32
  {
  }

  /** The determinant is the triple product of the rows taken cyclically from any row, and
      likewise of the columns. */
  lemma DeterminantTriple(m: M3, i: int)
    requires 1 <= i <= 3
    ensures Determinant(m) == Dot(Row(m, i), Cross(Row(m, Next(i)), Row(m, Next(Next(i)))))
    ensures Determinant(m) == Dot(Column(m, i), Cross(Column(m, Next(i)), Column(m, Next(Next(i)))))
  {
    assert Determinant(m) == Dot(Row(m, 1), Cross(Row(m, 2), Row(m, 3)));
    assert Determinant(m) == Dot(Column(m, 1), Cross(Column(m, 2), Column(m, 3)));
    TripleCyclic(Row(m, 1), Row(m, 2), Row(m, 3));
    TripleCyclic(Row(m, 2), Row(m, 3), Row(m, 1));
    TripleCyclic(Column(m, 1), Column(m, 2), Column(m, 3));
    TripleCyclic(Column(m, 2), Column(m, 3), Column(m, 1));
  }

  /** `makeMatrix3Transpose` as a value: array positions 1 and 3, 2 and 6, 5 and 7 swapped. */
  function Transpose(m: M3): (r: M3)
    ensures r.n11 == m.n11 && r.n22 == m.n22 && r.n33 == m.n33
    ensures r.n12 == m.n21 && r.n21 == m.n12
    ensures r.n13 == m.n31 && r.n31 == m.n13
    ensures r.n23 == m.n32 && r.n32 == m.n23
  {
    M3(m.n11, m.n12, m.n13, m.n21, m.n22, m.n23, m.n31, m.n32, m.n33)
  }

  lemma TransposeInvolution(m: M3)
    ensures Transpose(Transpose(m)) == m
  {
  }

  lemma DeterminantTranspose(m: M3)
    ensures Determinant(Transpose(m)) == Determinant(m)
  {
  }

  /** Transposing exchanges rows and columns. */
  lemma TransposeRowsColumns(m: M3, i: int)
    requires 1 <= i <= 3
    ensures Row(Transpose(m), i) == Column(m, i) && Column(Transpose(m), i) == Row(m, i)
  {
  }

  /** The transpose of a product is the product of the transposes, reversed. */
  lemma TransposeConcatenation(a: M3, b: M3)
    ensures Transpose(Concatenation(a, b)) == Concatenation(Transpose(b), Transpose(a))
  {
    var l, r := Transpose(Concatenation(a, b)), Concatenation(Transpose(b), Transpose(a));
    forall i, j | 1 <= i <= 3 && 1 <= j <= 3
      ensures Entry(l, i, j) == Entry(r, i, j)
    {
      EntryOfColumn(Concatenation(a, b), j, i);
      TransposeRowsColumns(Concatenation(a, b), j);
      ConcatenationEntry(a, b, j, i);
      ConcatenationEntry(Transpose(b), Transpose(a), i, j);
      TransposeRowsColumns(b, i);
      TransposeRowsColumns(a, j);
      DotSymmetric(Row(a, j), Column(b, i));
    }
    EqualByEntries(l, r);
  }

  // ---------------------------------------------------------------------------------------
  // makeMatrix3Inverse

  /** The determinant `makeMatrix3Inverse` computes on its own: n11·t11 + n21·t12 + n31·t13 with
      the cofactors t11, t12, t13 written out. */
  function InverseDeterminant(m: M3): real {
    m.n11 * (m.n33 * m.n22 - m.n32 * m.n23) + m.n21 * (m.n32 * m.n13 - m.n33 * m.n12)
    + m.n31 * (m.n23 * m.n12 - m.n22 * m.n13)
  }

  lemma InverseDeterminantIsDeterminant(m: M3)
    ensures InverseDeterminant(m) == Determinant(m)
  {
  }

  /** The entries `makeMatrix3Inverse` writes when 1/det is `detInv`. */
  function InverseOf(m: M3, detInv: real): M3 {
    M3((m.n33 * m.n22 - m.n32 * m.n23) * detInv,
       (m.n31 * m.n23 - m.n33 * m.n21) * detInv,
       (m.n32 * m.n21 - m.n31 * m.n22) * detInv,
       (m.n32 * m.n13 - m.n33 * m.n12) * detInv,
       (m.n33 * m.n11 - m.n31 * m.n13) * detInv,
       (m.n31 * m.n12 - m.n32 * m.n11) * detInv,
       (m.n23 * m.n12 - m.n22 * m.n13) * detInv,
       (m.n21 * m.n13 - m.n23 * m.n11) * detInv,
       (m.n22 * m.n11 - m.n21 * m.n12) * detInv)
  }

  /** The columns written are the cross products of m's rows, scaled by detInv. */
  lemma InverseOfColumns(m: M3, detInv: real, j: int)
    requires 1 <= j <= 3
    ensures Column(InverseOf(m, detInv), j) == ScaledPoint(Cross(Row(m, Next(j)), Row(m, Next(Next(j)))), detInv)
  {
    if j == 1 {
      assert Next(j) == 2 && Next(Next(j)) == 3;
    } else if j == 2 {
      assert Next(j) == 3 && Next(Next(j)) == 1;
    } else {
      assert Next(j) == 1 && Next(Next(j)) == 2;
    }
  }

  /** The rows written are the cross products of m's columns, scaled by detInv. */
  lemma InverseOfRows(m: M3, detInv: real, j: int)
    requires 1 <= j <= 3
    ensures Row(InverseOf(m, detInv), j) == ScaledPoint(Cross(Column(m, Next(j)), Column(m, Next(Next(j)))), detInv)
  {
    if j == 1 {
      assert Next(j) == 2 && Next(Next(j)) == 3;
    } else if j == 2 {
      assert Next(j) == 3 && Next(Next(j)) == 1;
    } else {
      assert Next(j) == 1 && Next(Next(j)) == 2;
    }
  }

  /** Row i of m dotted with the cross product of rows Next(j) and Next(Next(j)) is the
      determinant when i == j and 0 otherwise; likewise for columns. */
  lemma TripleOfRows(m: M3, i: int, j: int)
    requires 1 <= i <= 3 && 1 <= j <= 3
    ensures Dot(Row(m, i), Cross(Row(m, Next(j)), Row(m, Next(Next(j)))))
         == if i == j then Determinant(m) else 0.0
    ensures Dot(Column(m, i), Cross(Column(m, Next(j)), Column(m, Next(Next(j)))))
         == if i == j then Determinant(m) else 0.0
  {
    if i == j {
      DeterminantTriple(m, j);
    } else {
      CrossOrthogonal(Row(m, Next(j)), Row(m, Next(Next(j))));
      CrossOrthogonal(Column(m, Next(j)), Column(m, Next(Next(j))));
      assert i == Next(j) || i == Next(Next(j));
    }
  }

  /** Entry (i, j) of m·InverseOf(m, detInv) and entry (j, i) of InverseOf(m, detInv)·m. */
  lemma InverseOfEntry(m: M3, detInv: real, i: int, j: int)
    requires 1 <= i <= 3 && 1 <= j <= 3
    requires detInv * Determinant(m) == 1.0
    ensures Entry(Concatenation(m, InverseOf(m, detInv)), i, j) == Entry(Identity, i, j)
    ensures Entry(Concatenation(InverseOf(m, detInv), m), j, i) == Entry(Identity, j, i)
  {
    var inv := InverseOf(m, detInv);
    var u, v := Row(m, Next(j)), Row(m, Next(Next(j)));
    var cu, cv := Column(m, Next(j)), Column(m, Next(Next(j)));
    var k := if i == j then Determinant(m) else 0.0;
    ConcatenationEntry(m, inv, i, j);
    InverseOfColumns(m, detInv, j);
    DotScaled(Row(m, i), Cross(u, v), detInv);
    TripleOfRows(m, i, j);
    ScaledEqual(Dot(Row(m, i), Cross(u, v)), k, detInv);
    ConcatenationEntry(inv, m, j, i);
    InverseOfRows(m, detInv, j);
    DotScaled(Cross(cu, cv), Column(m, i), detInv);
    DotSymmetric(Cross(cu, cv), Column(m, i));
    ScaledEqual(Dot(Column(m, i), Cross(cu, cv)), k, detInv);
    ReciprocalProduct(Determinant(m), detInv, i == j);
  }

  lemma ScaledEqual(a: real, b: real, d: real)
    requires a == b
    ensures a * d == b * d
  {
  }

  lemma ReciprocalProduct(det: real, detInv: real, same: bool)
    requires detInv * det == 1.0
    ensures (if same then det else 0.0) * detInv == if same then 1.0 else 0.0
  {
  }

  /** With detInv the reciprocal of the determinant, the written entries undo m on both sides. */
  lemma InverseOfInverts(m: M3, detInv: real)
    requires detInv * Determinant(m) == 1.0
    ensures Concatenation(m, InverseOf(m, detInv)) == Identity
    ensures Concatenation(InverseOf(m, detInv), m) == Identity
  {
    forall i, j | 1 <= i <= 3 && 1 <= j <= 3
      ensures Entry(Concatenation(m, InverseOf(m, detInv)), i, j) == Entry(Identity, i, j)
      ensures Entry(Concatenation(InverseOf(m, detInv), m), i, j) == Entry(Identity, i, j)
    {
      InverseOfEntry(m, detInv, i, j);
      InverseOfEntry(m, detInv, j, i);
    }
    EqualByEntries(Concatenation(m, InverseOf(m, detInv)), Identity);
    EqualByEntries(Concatenation(InverseOf(m, detInv), m), Identity);
  }

  /** `makeMatrix3Inverse` as a value: fails with "can not invert degenerate matrix" exactly when
      the determinant is 0, and otherwise gives the matrix that undoes m on either side. */
  function Inverse(m: M3): (r: Result<M3>)
    ensures r.Failure? <==> Determinant(m) == 0.0
    ensures r.Failure? ==> r.error == "can not invert degenerate matrix"
    ensures r.Success? ==> Concatenation(m, r.value) == Identity && Concatenation(r.value, m) == Identity
  {
    InverseDeterminantIsDeterminant(m);
    var det := InverseDeterminant(m);
    if det == 0.0 then
      Failure("can not invert degenerate matrix")
    else
      var detInv := 1.0 / det;
      InverseOfInverts(m, detInv);
      Success(InverseOf(m, detInv))
  }

  /** An invertible matrix has exactly one inverse: a right inverse is the one computed. */
  lemma InverseUnique(m: M3, x: M3)
    requires Determinant(m) != 0.0 && Concatenation(m, x) == Identity
    ensures Inverse(m) == Success(x)
  {
    var inv := Inverse(m).value;
    ConcatenationAssociative(inv, m, x);
    ConcatenationIdentity(x);
    ConcatenationIdentity(inv);
  }

  // ---------------------------------------------------------------------------------------
  // makeMatrix3Translation and makeMatrix3Scale

  /** `Matrix3.set` with its arguments read row by row. */
  function SetRowMajor(n11: real, n12: real, n13: real, n21: real, n22: real, n23: real,
                       n31: real, n32: real, n33: real): (r: M3)
    ensures Row(r, 1) == Point3(n11, n12, n13)
    ensures Row(r, 2) == Point3(n21, n22, n23)
    ensures Row(r, 3) == Point3(n31, n32, n33)
  {
    M3(n11, n21, n31, n12, n22, n32, n13, n23, n33)
  }

  /** The alternative reading of `set`: arguments column by column, the transpose of the above. */
  function SetColumnMajor(n11: real, n12: real, n13: real, n21: real, n22: real, n23: real,
                          n31: real, n32: real, n33: real): (r: M3)
    ensures r == Transpose(SetRowMajor(n11, n12, n13, n21, n22, n23, n31, n32, n33))
  {
    M3(n11, n12, n13, n21, n22, n23, n31, n32, n33)
  }

  /** `makeMatrix3Translation` as a value. */
  function Translation(t: Vector2): M3 {
    SetRowMajor(1.0, 0.0, t.x, 0.0, 1.0, t.y, 0.0, 0.0, 1.0)
  }

  /** `makeMatrix3Scale` as a value. */
  function Scale(s: Vector2): M3 {
    SetRowMajor(s.x, 0.0, 0.0, 0.0, s.y, 0.0, 0.0, 0.0, 1.0)
  }

  /** A translation has determinant 1 whichever way `set` reads its arguments, and moves
      every position by t. */
  lemma TranslationProperties(t: Vector2, x: real, y: real)
    ensures Determinant(Translation(t)) == 1.0
    ensures Determinant(SetColumnMajor(1.0, 0.0, t.x, 0.0, 1.0, t.y, 0.0, 0.0, 1.0)) == 1.0
    ensures Apply(Translation(t), Point3(x, y, 1.0)) == Point3(x + t.x, y + t.y, 1.0)
  {
  }

  /** A scale has determinant s.x·s.y whichever way `set` reads its arguments, and scales
      every position by s. */
  lemma ScaleProperties(s: Vector2, x: real, y: real)
    ensures Determinant(Scale(s)) == s.x * s.y
    ensures Determinant(SetColumnMajor(s.x, 0.0, 0.0, 0.0, s.y, 0.0, 0.0, 0.0, 1.0)) == s.x * s.y
    ensures Apply(Scale(s), Point3(x, y, 1.0)) == Point3(s.x * x, s.y * y, 1.0)
  {
  }

  /** Concatenating two translations translates by their sum. */
  lemma TranslationsCompose(t: Vector2, u: Vector2)
    ensures Concatenation(Translation(t), Translation(u)) == Translation(Vector2(t.x + u.x, t.y + u.y))
  {
  }

  // ---------------------------------------------------------------------------------------
  // The in-place functions over `Matrix3` objects

  /** A `Matrix3`: nine reals in column-major order, written in place. */
  class Matrix3 {
    const elements: array<real>

    predicate Valid()
      reads this
    {
      elements.Length == 9
    }

    /** The matrix the elements currently hold. */
    function Value(): (r: M3)
      requires Valid()
      reads this, elements
      ensures Column(r, 1) == Point3(elements[0], elements[1], elements[2])
      ensures Column(r, 2) == Point3(elements[3], elements[4], elements[5])
      ensures Column(r, 3) == Point3(elements[6], elements[7], elements[8])
    {
      M3(elements[0], elements[1], elements[2], elements[3], elements[4], elements[5],
         elements[6], elements[7], elements[8])
    }

    /** `new Matrix3()`: the identity. */
    constructor ()
      ensures Valid() && fresh(elements) && Value() == Identity
    {
      elements := new real[9] [1.0, 0.0, 0.0, 0.0, 1.0, 0.0, 0.0, 0.0, 1.0];
    }

    /** `set(n11, n12, n13, n21, ...)`: the arguments row by row. */
    method Set(n11: real, n12: real, n13: real, n21: real, n22: real, n23: real,
               n31: real, n32: real, n33: real)
      requires Valid()
      modifies elements
      ensures Value() == SetRowMajor(n11, n12, n13, n21, n22, n23, n31, n32, n33)
    {
      elements[0], elements[1], elements[2] := n11, n21, n31;
      elements[3], elements[4], elements[5] := n12, n22, n32;
      elements[6], elements[7], elements[8] := n13, n23, n33;
    }

    /** `copy(m)`: the nine elements of m. */
    method Copy(m: Matrix3)
      requires Valid() && m.Valid()
      modifies elements
      ensures Value() == old(m.Value())
    {
      var e := m.elements;
      var e0, e1, e2, e3, e4, e5, e6, e7, e8 := e[0], e[1], e[2], e[3], e[4], e[5], e[6], e[7], e[8];
      elements[0], elements[1], elements[2] := e0, e1, e2;
      elements[3], elements[4], elements[5] := e3, e4, e5;
      elements[6], elements[7], elements[8] := e6, e7, e8;
    }
  }

  /** The `result = new Matrix3()` default: the given matrix, or a fresh identity. */
  method ResultOrNew(result: Matrix3?) returns (r: Matrix3)
    requires result != null ==> result.Valid()
    ensures r.Valid()
    ensures result != null ==> r == result
    ensures result == null ==> fresh(r) && fresh(r.elements) && r.Value() == Identity
  {
    if result == null {
      r := new Matrix3();
    } else {
      r := result;
    }
  }

  /** `makeMatrix3Concatenation(a, b, result)`: every element of a and b is read before the
      first write, so the product is right even when `result` is a or b. */
  method MakeMatrix3Concatenation(a: Matrix3, b: Matrix3, result: Matrix3? := null) returns (r: Matrix3)
    requires a.Valid() && b.Valid() && (result != null ==> result.Valid())
    modifies if result == null then {} else {result.elements}
    ensures r.Valid() && (result != null ==> r == result) && (result == null ==> fresh(r.elements))
    ensures r.Value() == Concatenation(old(a.Value()), old(b.Value()))
  {
    r := ResultOrNew(result);
    var ae, be, te := a.elements, b.elements, r.elements;
    var a11, a12, a13 := ae[0], ae[3], ae[6];
    var a21, a22, a23 := ae[1], ae[4], ae[7];
    var a31, a32, a33 := ae[2], ae[5], ae[8];
    var b11, b12, b13 := be[0], be[3], be[6];
    var b21, b22, b23 := be[1], be[4], be[7];
    var b31, b32, b33 := be[2], be[5], be[8];
    var va := M3(a11, a21, a31, a12, a22, a32, a13, a23, a33);
    var vb := M3(b11, b21, b31, b12, b22, b32, b13, b23, b33);
    assert va == old(a.Value()) && vb == old(b.Value());
    var c := Concatenation(va, vb);
    te[0], te[3], te[6] := c.n11, c.n12, c.n13;
    te[1], te[4], te[7] := c.n21, c.n22, c.n23;
    te[2], te[5], te[8] := c.n31, c.n32, c.n33;
  }

  /** `matrix3Determinant(m)`. */
  method Matrix3Determinant(m: Matrix3) returns (d: real)
    requires m.Valid()
    ensures d == Determinant(m.Value())
  {
    var te := m.elements;
    var a, b, c, d', e, f, g, h, i := te[0], te[1], te[2], te[3], te[4], te[5], te[6], te[7], te[8];
    d := a * e * i - a * f * h - b * d' * i + b * f * g + c * d' * h - c * e * g;
  }

  /** `makeMatrix3Transpose(m, result)`: copy m into result, then swap elements 1 and 3, 2 and 6,
      5 and 7 through a temporary. */
  method MakeMatrix3Transpose(m: Matrix3, result: Matrix3? := null) returns (r: Matrix3)
    requires m.Valid() && (result != null ==> result.Valid())
    modifies if result == null then {} else {result.elements}
    ensures r.Valid() && (result != null ==> r == result) && (result == null ==> fresh(r.elements))
    ensures r.Value() == Transpose(old(m.Value()))
  {
    r := ResultOrNew(result);
    r.Copy(m);
    var me := r.elements;
    var tmp := me[1];
    me[1] := me[3];
    me[3] := tmp;
    tmp := me[2];
    me[2] := me[6];
    me[6] := tmp;
    tmp := me[5];
    me[5] := me[7];
    me[7] := tmp;
  }

  /** `makeMatrix3Inverse(m, result)`: the error "can not invert degenerate matrix" (thrown in
      the source, before any write) when the determinant is 0; otherwise result holds the
      inverse, computed from the elements of m read before the first write. */
  method MakeMatrix3Inverse(m: Matrix3, result: Matrix3? := null) returns (r: Result<Matrix3>)
    requires m.Valid() && (result != null ==> result.Valid())
    modifies if result == null then {} else {result.elements}
    ensures r.Failure? <==> Determinant(old(m.Value())) == 0.0
    ensures r.Failure? ==> r.error == "can not invert degenerate matrix"
    ensures r.Failure? && result != null ==> unchanged(result.elements)
    ensures r.Success? ==> r.value.Valid() && (result != null ==> r.value == result)
    ensures r.Success? && result == null ==> fresh(r.value.elements)
    ensures r.Success? ==> Inverse(old(m.Value())) == Success(r.value.Value())
  {
    var e := m.elements;
    var n11, n21, n31 := e[0], e[1], e[2];
    var n12, n22, n32 := e[3], e[4], e[5];
    var n13, n23, n33 := e[6], e[7], e[8];
    var t11 := n33 * n22 - n32 * n23;
    var t12 := n32 * n13 - n33 * n12;
    var t13 := n23 * n12 - n22 * n13;
    var det := n11 * t11 + n21 * t12 + n31 * t13;
    var v := M3(n11, n21, n31, n12, n22, n32, n13, n23, n33);
    assert v == old(m.Value()) && det == InverseDeterminant(v);
    InverseDeterminantIsDeterminant(v);
    if det == 0.0 {
      return Failure("can not invert degenerate matrix");
    }
    var detInv := 1.0 / det;
    var res := ResultOrNew(result);
    var re := res.elements;
    var inv := InverseOf(v, detInv);
    re[0], re[1], re[2] := inv.n11, inv.n21, inv.n31;
    re[3], re[4], re[5] := inv.n12, inv.n22, inv.n32;
    re[6], re[7], re[8] := inv.n13, inv.n23, inv.n33;
    r := Success(res);
  }

  /** `makeMatrix3Translation(t, result)`. */
  method MakeMatrix3Translation(t: Vector2, result: Matrix3? := null) returns (r: Matrix3)
    requires result != null ==> result.Valid()
    modifies if result == null then {} else {result.elements}
    ensures r.Valid() && (result != null ==> r == result) && (result == null ==> fresh(r.elements))
    ensures r.Value() == Translation(t)
  {
    r := ResultOrNew(result);
    r.Set(1.0, 0.0, t.x, 0.0, 1.0, t.y, 0.0, 0.0, 1.0);
  }

  /** `makeMatrix3Scale(s, result)`. */
  method MakeMatrix3Scale(s: Vector2, result: Matrix3? := null) returns (r: Matrix3)
    requires result != null ==> result.Valid()
    modifies if result == null then {} else {result.elements}
    ensures r.Valid() && (result != null ==> r == result) && (result == null ==> fresh(r.elements))
    ensures r.Value() == Scale(s)
  {
    r := ResultOrNew(result);
    r.Set(s.x, 0.0, 0.0, 0.0, s.y, 0.0, 0.0, 0.0, 1.0);
  }
}
