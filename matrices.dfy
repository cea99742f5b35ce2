/** Value-level model of the library's 3x3 integer matrix, stored as three
    column vectors, and of the matrix operations: the pure ones (equality,
    determinant) as they are, and the specifications of the ones that write
    through pointers (matrix times vector, addition, multiplication,
    transpose), which the class layer in module LinAlg is proved against. */
module Matrices {
  import opened Vectors

  /** The `Matrix` struct: columns c1, c2, c3. */
  datatype Mat3 = Mat3(c1: Vec3, c2: Vec3, c3: Vec3)

  const ZeroMatrix: Mat3 := Mat3(Zero, Zero, Zero)
  const Identity: Mat3 := Mat3(Vec3(1, 0, 0), Vec3(0, 1, 0), Vec3(0, 0, 1))

  /** Column `j` (0, 1 or 2). */
  function Column(m: Mat3, j: nat): Vec3
    requires j < 3
  {
    if j == 0 then m.c1 else if j == 1 then m.c2 else m.c3
  }

  /** The entry in row `i`, column `j`, in standard row/column notation. */
  function Entry(m: Mat3, i: nat, j: nat): int
    requires i < 3 && j < 3
  {
    Component(Column(m, j), i)
  }

  /** Row `i` of the matrix, read across the three columns. */
  function Row(m: Mat3, i: nat): Vec3
    requires i < 3
  {
    Vec3(Component(m.c1, i), Component(m.c2, i), Component(m.c3, i))
  }

  /** `areMatricesEqual`: the three columns are pairwise vector-equal. */
  function MatricesEqual(m1: Mat3, m2: Mat3): (r: bool)
    ensures r <==> m1 == m2
  {
    VectorsEqual(m1.c1, m2.c1) && VectorsEqual(m1.c2, m2.c2) && VectorsEqual(m1.c3, m2.c3)
  }

  /** What `multiplyMatrixTimesVector` writes into its output: the columns
      scaled by the vector's components, then added up. Component i of the
      result is row i of the matrix dotted with the vector, so this
      linear-combination-of-columns computation is the usual matrix-vector
      product. */
  function Apply(m: Mat3, v: Vec3): (r: Vec3)
    ensures forall i: nat :: i < 3 ==> Component(r, i) == Dot(Row(m, i), v)
  {
    var s1, s2, s3 := Scaled(m.c1, v.x), Scaled(m.c2, v.y), Scaled(m.c3, v.z);
    Vec3(s1.x + s2.x + s3.x, s1.y + s2.y + s3.y, s1.z + s2.z + s3.z)
  }

  /** What `addMatrices` writes into its output: the columnwise sums, so
      each entry is the sum of the corresponding entries. */
  function MatSum(m1: Mat3, m2: Mat3): (r: Mat3)
    ensures forall i: nat, j: nat :: i < 3 && j < 3 ==> Entry(r, i, j) == Entry(m1, i, j) + Entry(m2, i, j)
  {
    Mat3(Sum(m1.c1, m2.c1), Sum(m1.c2, m2.c2), Sum(m1.c3, m2.c3))
  }

  /** What `multiplyMatrices` writes into its output: column j of the result
      is the first matrix applied to column j of the second. */
  function Product(m1: Mat3, m2: Mat3): Mat3 {
    Mat3(Apply(m1, m2.c1), Apply(m1, m2.c2), Apply(m1, m2.c3))
  }

  /** What `transposeMatrix` writes into its output: row i becomes column i,
      so entry (i, j) of the result is entry (j, i) of the input. */
  function Transposed(m: Mat3): (r: Mat3)
    ensures forall i: nat, j: nat :: i < 3 && j < 3 ==> Entry(r, i, j) == Entry(m, j, i)
  {
    Mat3(Vec3(m.c1.x, m.c2.x, m.c3.x),
         Vec3(m.c1.y, m.c2.y, m.c3.y),
         Vec3(m.c1.z, m.c2.z, m.c3.z))
  }

  /** `getDeterminant`: cofactor expansion along the first row, whose entries
      are c1.x, c2.x and c3.x (its value is integral; the `double` return is
      not modelled). */
  function Det(m: Mat3): int {
    var i := m.c1.x * (m.c2.y * m.c3.z - m.c3.y * m.c2.z);
    var j := m.c2.x * (m.c1.y * m.c3.z - m.c3.y * m.c1.z);
    var k := m.c3.x * (m.c1.y * m.c2.z - m.c2.y * m.c1.z);
    i - j + k
  }

  // ---------------------------------------------------------------------
  // Equality

  lemma MatricesEqualReflexive(m: Mat3)
    ensures MatricesEqual(m, m)
  {
  }

  lemma MatricesEqualSymmetric(m1: Mat3, m2: Mat3)
    ensures MatricesEqual(m1, m2) == MatricesEqual(m2, m1)
  {
  }

  /** Matrices are equal exactly when every entry is. */
  lemma MatricesEqualEntries(m1: Mat3, m2: Mat3)
    ensures MatricesEqual(m1, m2) <==>
            forall i, j :: 0 <= i < 3 && 0 <= j < 3 ==> Entry(m1, i, j) == Entry(m2, i, j)
  {
    if forall i, j :: 0 <= i < 3 && 0 <= j < 3 ==> Entry(m1, i, j) == Entry(m2, i, j) {
      forall j | 0 <= j < 3
        ensures Column(m1, j) == Column(m2, j)
      {
        assert Entry(m1, 0, j) == Entry(m2, 0, j);
        assert Entry(m1, 1, j) == Entry(m2, 1, j);
        assert Entry(m1, 2, j) == Entry(m2, 2, j);
      }
      assert Column(m1, 0) == Column(m2, 0);
      assert Column(m1, 1) == Column(m2, 1);
      assert Column(m1, 2) == Column(m2, 2);
    }
  }

  // ---------------------------------------------------------------------
  // Matrix times vector

  /** Every matrix maps the zero vector to zero, and the zero matrix maps
      every vector to zero. */
  lemma ApplyZero(m: Mat3, v: Vec3)
    ensures Apply(m, Zero) == Zero && Apply(ZeroMatrix, v) == Zero
  {
  }

  /** The identity matrix maps every vector to itself. */
  lemma ApplyIdentity(v: Vec3)
    ensures Apply(Identity, v) == v
  {
  }

  /** Matrix times vector is linear in the vector. */
  lemma ApplyLinear(m: Mat3, u: Vec3, v: Vec3, a: int, b: int)
    ensures Apply(m, Sum(Scaled(u, a), Scaled(v, b))) == Sum(Scaled(Apply(m, u), a), Scaled(Apply(m, v), b))
  {
    ApplyLinearComponent(m.c1.x, m.c2.x, m.c3.x, u, v, a, b);
    ApplyLinearComponent(m.c1.y, m.c2.y, m.c3.y, u, v, a, b);
    ApplyLinearComponent(m.c1.z, m.c2.z, m.c3.z, u, v, a, b);
  }

  /** One component of ApplyLinear: a row (p, q, r) dotted with a linear
      combination of u and v is the same combination of the two dots. */
  lemma ApplyLinearComponent(p: int, q: int, r: int, u: Vec3, v: Vec3, a: int, b: int)
    ensures p * (u.x * a + v.x * b) + q * (u.y * a + v.y * b) + r * (u.z * a + v.z * b)
         == (p * u.x + q * u.y + r * u.z) * a + (p * v.x + q * v.y + r * v.z) * b
  {
  }

  /** Applying a product is applying its factors in turn. */
  lemma ApplyProduct(m1: Mat3, m2: Mat3, v: Vec3)
    ensures Apply(Product(m1, m2), v) == Apply(m1, Apply(m2, v))
  {
  }

  // ---------------------------------------------------------------------
  // Addition

  lemma MatSumCommutative(m1: Mat3, m2: Mat3)
    ensures MatSum(m1, m2) == MatSum(m2, m1)
  {
  }

  lemma MatSumAssociative(m1: Mat3, m2: Mat3, m3: Mat3)
    ensures MatSum(MatSum(m1, m2), m3) == MatSum(m1, MatSum(m2, m3))
  {
  }

  lemma MatSumZero(m: Mat3)
    ensures MatSum(ZeroMatrix, m) == m && MatSum(m, ZeroMatrix) == m
  {
  }

  // ---------------------------------------------------------------------
  // Multiplication

  /** The column-by-column product agrees with the row-times-column formula
      for every entry. */
  lemma ProductEntry(m1: Mat3, m2: Mat3, i: nat, j: nat)
    requires i < 3 && j < 3
    ensures Entry(Product(m1, m2), i, j)
         == Entry(m1, i, 0) * Entry(m2, 0, j) + Entry(m1, i, 1) * Entry(m2, 1, j) + Entry(m1, i, 2) * Entry(m2, 2, j)
  {
  }

  lemma ProductIdentity(m: Mat3)
    ensures Product(Identity, m) == m && Product(m, Identity) == m
  {
  }

  lemma ProductAssociative(m1: Mat3, m2: Mat3, m3: Mat3)
    ensures Product(Product(m1, m2), m3) == Product(m1, Product(m2, m3))
  {
    ApplyProduct(m1, m2, m3.c1);
    ApplyProduct(m1, m2, m3.c2);
    ApplyProduct(m1, m2, m3.c3);
  }

  lemma ProductZero(m: Mat3)
    ensures Product(m, ZeroMatrix) == ZeroMatrix && Product(ZeroMatrix, m) == ZeroMatrix
  {
  }

  // ---------------------------------------------------------------------
  // Transpose

  lemma TransposeInvolution(m: Mat3)
    ensures Transposed(Transposed(m)) == m
  {
  }

  lemma TransposeIdentity()
    ensures Transposed(Identity) == Identity
  {
  }

  /** The transpose of a product is the product of the transposes, reversed. */
  lemma TransposeProduct(m1: Mat3, m2: Mat3)
    ensures Transposed(Product(m1, m2)) == Product(Transposed(m2), Transposed(m1))
  {
  }

  // ---------------------------------------------------------------------
  // Determinant

  /** The first-row cofactor expansion equals the scalar triple product of
      the columns, c1 . (c2 x c3). */
  lemma DetTripleProduct(m: Mat3)
    ensures Det(m) == Dot(m.c1, Cross(m.c2, m.c3))
  {
  }

  lemma DetIdentity()
    ensures Det(Identity) == 1
  {
  }

  lemma DetTranspose(m: Mat3)
    ensures Det(Transposed(m)) == Det(m)
  {
  }

  /** Rotating the columns leaves the determinant unchanged. */
  lemma DetCyclic(u: Vec3, v: Vec3, w: Vec3)
    ensures Det(Mat3(v, w, u)) == Det(Mat3(u, v, w))
  {
  }

  /** Expanded along the second or the third column, the determinant is that
      column dotted with the cross product of the other two, taken in cyclic
      order (the first column is DetTripleProduct). */
  lemma DetColumns(u: Vec3, v: Vec3, w: Vec3)
    ensures Det(Mat3(u, v, w)) == Dot(v, Cross(w, u))
    ensures Det(Mat3(u, v, w)) == Dot(w, Cross(u, v))
  {
    DetTripleProduct(Mat3(u, v, w));
    DetTripleProduct(Mat3(v, w, u));
    DetTripleProduct(Mat3(w, u, v));
    DetCyclic(u, v, w);
    DetCyclic(v, w, u);
  }

  /** Swapping any two columns negates the determinant. */
  lemma DetAlternating(u: Vec3, v: Vec3, w: Vec3)
    ensures Det(Mat3(v, u, w)) == -Det(Mat3(u, v, w))
    ensures Det(Mat3(u, w, v)) == -Det(Mat3(u, v, w))
    ensures Det(Mat3(w, v, u)) == -Det(Mat3(u, v, w))
  {
  }

  /** Dotting an image under m is a combination of dotting m's columns. */
  lemma DotApply(m: Mat3, v: Vec3, k: Vec3)
    ensures Dot(Apply(m, v), k) == v.x * Dot(m.c1, k) + v.y * Dot(m.c2, k) + v.z * Dot(m.c3, k)
  {
  }

  /** Expanding the second column when it is an image under m. */
  lemma DetExpandSecond(m: Mat3, u: Vec3, v: Vec3, y: Vec3)
    ensures Det(Mat3(u, Apply(m, v), y))
         == v.x * Det(Mat3(u, m.c1, y)) + v.y * Det(Mat3(u, m.c2, y)) + v.z * Det(Mat3(u, m.c3, y))
  {
    DetColumns(u, Apply(m, v), y);
    DotApply(m, v, Cross(y, u));
    DetColumns(u, m.c1, y);
    DetColumns(u, m.c2, y);
    DetColumns(u, m.c3, y);
  }

  /** Expanding the third column when it is an image under m. */
  lemma DetExpandThird(m: Mat3, u: Vec3, x: Vec3, w: Vec3)
    ensures Det(Mat3(u, x, Apply(m, w)))
         == w.x * Det(Mat3(u, x, m.c1)) + w.y * Det(Mat3(u, x, m.c2)) + w.z * Det(Mat3(u, x, m.c3))
  {
    DetColumns(u, x, Apply(m, w));
    DotApply(m, w, Cross(u, x));
    DetColumns(u, x, m.c1);
    DetColumns(u, x, m.c2);
    DetColumns(u, x, m.c3);
  }

  /** A determinant whose second and third columns are images under m
      of v and w, with first column u, expanded into the determinants of u
      beside two columns of m. */
  lemma DetImagesExpanded(m: Mat3, u: Vec3, v: Vec3, w: Vec3)
    ensures Det(Mat3(u, Apply(m, v), Apply(m, w)))
         == v.x * (w.x * Det(Mat3(u, m.c1, m.c1)) + w.y * Det(Mat3(u, m.c1, m.c2)) + w.z * Det(Mat3(u, m.c1, m.c3)))
          + v.y * (w.x * Det(Mat3(u, m.c2, m.c1)) + w.y * Det(Mat3(u, m.c2, m.c2)) + w.z * Det(Mat3(u, m.c2, m.c3)))
          + v.z * (w.x * Det(Mat3(u, m.c3, m.c1)) + w.y * Det(Mat3(u, m.c3, m.c2)) + w.z * Det(Mat3(u, m.c3, m.c3)))
  {
    DetExpandSecond(m, u, v, Apply(m, w));
    DetExpandThird(m, u, m.c1, w);
    DetExpandThird(m, u, m.c2, w);
    DetExpandThird(m, u, m.c3, w);
  }

  /** A determinant whose second and third columns are images under m,
      and whose first column is column i of m, is det(m) times component i
      of the cross product of the preimages. */
  lemma DetImages(m: Mat3, i: nat, v: Vec3, w: Vec3)
    requires i < 3
    ensures Det(Mat3(Column(m, i), Apply(m, v), Apply(m, w))) == Det(m) * Component(Cross(v, w), i)
  {
    var a1, a2, a3 := m.c1, m.c2, m.c3;
    var u := Column(m, i);
    DetImagesExpanded(m, u, v, w);
    var d := Det(Mat3(a1, a2, a3));
    assert Det(m) == d;
    // the nine determinants of u beside two columns of m follow the sign
    // pattern of (i, j, k)
    DetOfColumns(m, i, 0, 0); DetOfColumns(m, i, 0, 1); DetOfColumns(m, i, 0, 2);
    DetOfColumns(m, i, 1, 0); DetOfColumns(m, i, 1, 1); DetOfColumns(m, i, 1, 2);
    DetOfColumns(m, i, 2, 0); DetOfColumns(m, i, 2, 1); DetOfColumns(m, i, 2, 2);
    CollapseLevi(i, v, w, d,
      Det(Mat3(u, a1, a1)), Det(Mat3(u, a1, a2)), Det(Mat3(u, a1, a3)),
      Det(Mat3(u, a2, a1)), Det(Mat3(u, a2, a2)), Det(Mat3(u, a2, a3)),
      Det(Mat3(u, a3, a1)), Det(Mat3(u, a3, a2)), Det(Mat3(u, a3, a3)));
  }

  /** The sign of the permutation (i, j, k) of (0, 1, 2), and 0 when two of
      them coincide. */
  function Levi(i: nat, j: nat, k: nat): int {
    if i == j || j == k || i == k then 0
    else if (i, j, k) == (0, 1, 2) || (i, j, k) == (1, 2, 0) || (i, j, k) == (2, 0, 1) then 1
    else -1
  }

  /** The determinant of three columns of m (columns i, j, k) is the sign of
      (i, j, k) times det(m). */
  lemma DetOfColumns(m: Mat3, i: nat, j: nat, k: nat)
    requires i < 3 && j < 3 && k < 3
    ensures Det(Mat3(Column(m, i), Column(m, j), Column(m, k))) == Levi(i, j, k) * Det(m)
  {
    var a1, a2, a3 := m.c1, m.c2, m.c3;
    assert Det(m) == Det(Mat3(a1, a2, a3));
    if i == j {
      DetRepeated(Column(m, i), Column(m, k));
    } else if j == k {
      DetRepeated(Column(m, j), Column(m, i));
    } else if i == k {
      DetRepeated(Column(m, i), Column(m, j));
    } else if (i, j, k) == (1, 2, 0) {
      DetCyclic(a1, a2, a3);
    } else if (i, j, k) == (2, 0, 1) {
      DetCyclic(a2, a3, a1);
      DetCyclic(a1, a2, a3);
    } else if (i, j, k) == (1, 0, 2) || (i, j, k) == (0, 2, 1) || (i, j, k) == (2, 1, 0) {
      DetAlternating(a1, a2, a3);
    }
  }

  /** The arithmetic that collapses the nine-term expansion of DetImages. */
  lemma CollapseLevi(i: nat, v: Vec3, w: Vec3, d: int,
                     d11: int, d12: int, d13: int, d21: int, d22: int, d23: int, d31: int, d32: int, d33: int)
    requires i < 3
    requires d11 == Levi(i, 0, 0) * d && d12 == Levi(i, 0, 1) * d && d13 == Levi(i, 0, 2) * d
    requires d21 == Levi(i, 1, 0) * d && d22 == Levi(i, 1, 1) * d && d23 == Levi(i, 1, 2) * d
    requires d31 == Levi(i, 2, 0) * d && d32 == Levi(i, 2, 1) * d && d33 == Levi(i, 2, 2) * d
    ensures v.x * (w.x * d11 + w.y * d12 + w.z * d13)
          + v.y * (w.x * d21 + w.y * d22 + w.z * d23)
          + v.z * (w.x * d31 + w.y * d32 + w.z * d33)
         == d * Component(Cross(v, w), i)
  {
  }

  /** A determinant with a repeated column is 0. */
  lemma DetRepeated(u: Vec3, v: Vec3)
    ensures Det(Mat3(u, u, v)) == 0 && Det(Mat3(u, v, u)) == 0 && Det(Mat3(v, u, u)) == 0
  {
  }

  lemma DetMultiplicative(m1: Mat3, m2: Mat3)
    ensures Det(Product(m1, m2)) == Det(m1) * Det(m2)
  {
    var p := Product(m1, m2);
    var b1, b2, b3 := m2.c1, m2.c2, m2.c3;
    var d, k := Det(m1), Cross(b2, b3);
    // expand along the first column of the product, the image of b1
    DetTripleProduct(Mat3(p.c1, p.c2, p.c3));
    DotApply(m1, b1, Cross(p.c2, p.c3));
    var t1, t2, t3 := Det(Mat3(m1.c1, p.c2, p.c3)), Det(Mat3(m1.c2, p.c2, p.c3)), Det(Mat3(m1.c3, p.c2, p.c3));
    DetTripleProduct(Mat3(m1.c1, p.c2, p.c3));
    DetTripleProduct(Mat3(m1.c2, p.c2, p.c3));
    DetTripleProduct(Mat3(m1.c3, p.c2, p.c3));
    assert Det(p) == b1.x * t1 + b1.y * t2 + b1.z * t3;
    // each term is det(m1) times a component of b2 x b3
    DetImages(m1, 0, b2, b3);
    DetImages(m1, 1, b2, b3);
    DetImages(m1, 2, b2, b3);
    assert t1 == d * k.x && t2 == d * k.y && t3 == d * k.z;
    FactorOut(b1, k, d);
    DetTripleProduct(Mat3(b1, b2, b3));
  }

  /** d can be taken out of a dot product with d times the vector. */
  lemma FactorOut(u: Vec3, k: Vec3, d: int)
    ensures u.x * (d * k.x) + u.y * (d * k.y) + u.z * (d * k.z) == d * Dot(u, k)
  {
  }

  // ---------------------------------------------------------------------
  // The literal cases of the library's test driver

  lemma MatricesEqualExamples()
    ensures MatricesEqual(Mat3(Vec3(1, 4, 7), Vec3(2, 5, 8), Vec3(3, 6, 9)),
                          Mat3(Vec3(1, 4, 7), Vec3(2, 5, 8), Vec3(3, 6, 9)))
    ensures !MatricesEqual(Mat3(Vec3(1, 4, 7), Vec3(2, 5, 8), Vec3(3, 6, 9)),
                           Mat3(Vec3(9, 6, 3), Vec3(8, 5, 2), Vec3(7, 4, 1)))
    ensures !MatricesEqual(Mat3(Vec3(1, 4, 7), Vec3(2, 5, 8), Vec3(3, 6, 9)),
                           Mat3(Vec3(0, 4, 7), Vec3(2, 5, 8), Vec3(3, 6, 9)))
    ensures !MatricesEqual(Mat3(Vec3(1, 4, 7), Vec3(2, 5, 8), Vec3(3, 6, 9)),
                           Mat3(Vec3(1, 4, 7), Vec3(3, 5, 8), Vec3(3, 6, 9)))
    ensures !MatricesEqual(Mat3(Vec3(1, 4, 7), Vec3(2, 5, 8), Vec3(3, 6, 9)),
                           Mat3(Vec3(1, 4, 7), Vec3(2, 5, 8), Vec3(0, 6, 9)))
  {
  }

  lemma ApplyExamples()
    ensures Apply(Mat3(Vec3(6, 2, 8), Vec3(3, -2, 5), Vec3(1, 7, 9)), Vec3(0, 0, 0)) == Vec3(0, 0, 0)
    ensures Apply(Mat3(Vec3(8, 2, 7), Vec3(1, 1, -8), Vec3(1, 7, 3)), Vec3(1, 5, 9)) == Vec3(22, 70, -6)
    ensures Apply(Mat3(Vec3(-1, -17, 40), Vec3(10, 3, 12), Vec3(11, 35, 13)), Vec3(9, -4, -6))
         == Vec3(-115, -375, 234)
  {
  }

  lemma MatSumExamples()
    ensures MatSum(Mat3(Vec3(1, 4, 7), Vec3(2, 5, 8), Vec3(3, 6, 9)),
                   Mat3(Vec3(9, 6, 3), Vec3(8, 5, 2), Vec3(7, 4, 1)))
         == Mat3(Vec3(10, 10, 10), Vec3(10, 10, 10), Vec3(10, 10, 10))
  {
  }

  lemma ProductExamples()
    ensures Product(Mat3(Vec3(6, -1, 2), Vec3(9, 2, 4), Vec3(-4, 7, 3)),
                    Mat3(Vec3(2, 8, 1), Vec3(12, -2, 3), Vec3(11, 7, 3)))
         == Mat3(Vec3(80, 21, 39), Vec3(42, 5, 25), Vec3(117, 24, 59))
    ensures Product(Mat3(Vec3(1, 2, 3), Vec3(8, 8, 6), Vec3(9, 2, 1)),
                    Mat3(Vec3(-1, 0, 4), Vec3(8, 7, -10), Vec3(0, 4, 9)))
         == Mat3(Vec3(35, 6, 1), Vec3(-26, 52, 56), Vec3(113, 50, 33))
    ensures Product(Mat3(Vec3(1, 4, 7), Vec3(2, 5, 8), Vec3(3, 6, 9)),
                    Mat3(Vec3(10, 13, 16), Vec3(11, 14, 17), Vec3(12, 15, 18)))
         == Mat3(Vec3(84, 201, 318), Vec3(90, 216, 342), Vec3(96, 231, 366))
  {
  }

  lemma TransposedExamples()
    ensures Transposed(Mat3(Vec3(1, 2, 3), Vec3(4, 5, 6), Vec3(7, 8, 9)))
         == Mat3(Vec3(1, 4, 7), Vec3(2, 5, 8), Vec3(3, 6, 9))
    ensures Transposed(Mat3(Vec3(1, 4, 7), Vec3(2, 5, 8), Vec3(3, 6, 9)))
         == Mat3(Vec3(1, 2, 3), Vec3(4, 5, 6), Vec3(7, 8, 9))
  {
  }

  lemma DetExamples()
    ensures Det(Mat3(Vec3(-1, 2, 6), Vec3(2, 5, 8), Vec3(6, 7, 0))) == 56
    ensures Det(Mat3(Vec3(1, 2, 3), Vec3(4, 5, 6), Vec3(7, 8, 9))) == 0
    ensures Det(Mat3(Vec3(0, 0, 0), Vec3(0, 0, 0), Vec3(0, 0, 0))) == 0
    ensures Det(Mat3(Vec3(1, 0, 0), Vec3(0, 1, 0), Vec3(0, 0, 1))) == 1
    ensures Det(Mat3(Vec3(1, 2, 0), Vec3(2, 1, 2), Vec3(0, 0, 1))) == -3
  {
  }
}
