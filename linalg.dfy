/** The library's operations that change state: `scaleVector`, which
    updates its argument in place, and the functions that write their result
    through an output pointer. A `Vector` object is the storage of one
    `Vector` struct; a `Matrix` object owns three `Vector` objects, as the
    `Matrix` struct embeds its three column structs. Each method is proved
    against the value-level operation in module Vectors or Matrices, with the
    aliasing the source permits left open and the aliasing that breaks the
    source's write order excluded. */
module LinAlg {
  import opened Vectors
  import opened Matrices

  /** The storage of one `Vector` struct. */
  class Vector {
    var x: int
    var y: int
    var z: int

    /** The components currently stored. */
    function Value(): Vec3
      reads this
    {
      Vec3(x, y, z)
    }

    /** A vector initialised from a value (a struct literal or a struct copy). */
    constructor (v: Vec3)
      ensures Value() == v
    {
      x, y, z := v.x, v.y, v.z;
    }

    /** Whole-struct assignment: all three components are replaced at once,
        after the right-hand side has been evaluated. */
    method Assign(v: Vec3)
      modifies this
      ensures Value() == v
    {
      x, y, z := v.x, v.y, v.z;
    }
  }

  /** The storage of one `Matrix` struct: its three embedded columns. */
  class Matrix {
    const c1: Vector
    const c2: Vector
    const c3: Vector

    /** The columns are three separate pieces of storage. */
    ghost predicate Valid() {
      c1 != c2 && c1 != c3 && c2 != c3
    }

    function Columns(): set<Vector> {
      {c1, c2, c3}
    }

    /** The matrix currently stored. */
    function Value(): Mat3
      reads Columns()
    {
      Mat3(c1.Value(), c2.Value(), c3.Value())
    }

    constructor (m: Mat3)
      ensures Valid() && fresh(Columns()) && Value() == m
    {
      c1 := new Vector(m.c1);
      c2 := new Vector(m.c2);
      c3 := new Vector(m.c3);
    }
  }

  /** Two matrices laid out as C lays out two `Matrix` objects: each embeds
      its own columns, so they share storage only if they are the same
      matrix. */
  ghost predicate Embedded(m1: Matrix, m2: Matrix) {
    m1.Valid() && m2.Valid() && (m1 == m2 || m1.Columns() !! m2.Columns())
  }

  // ---------------------------------------------------------------------
  // Vector operations

  /** `scaleVector`: multiplies each component of `vector` by `scalar`, in
      place; nothing else changes. */
  method ScaleVector(vector: Vector, scalar: int)
    modifies vector
    ensures vector.Value() == Scaled(old(vector.Value()), scalar)
  {
    vector.x := vector.x * scalar;
    vector.y := vector.y * scalar;
    vector.z := vector.z * scalar;
  }

  /** `addVectors`: writes the componentwise sum into `sum`. Each component
      written is read only for that same component, so `sum` may be either
      input. */
  method AddVectors(vector1: Vector, vector2: Vector, sum: Vector)
    modifies sum
    ensures sum.Value() == Sum(old(vector1.Value()), old(vector2.Value()))
  {
    sum.x := vector1.x + vector2.x;
    sum.y := vector1.y + vector2.y;
    sum.z := vector1.z + vector2.z;
  }

  /** `crossProduct`: writes the cross product into `product`. The x
      component is written before the inputs' x components are read again,
      so `product` must be separate from both inputs. */
  method CrossProduct(vector1: Vector, vector2: Vector, product: Vector)
    requires product != vector1 && product != vector2
    modifies product
    ensures product.Value() == Cross(old(vector1.Value()), old(vector2.Value()))
  {
    product.x := vector1.y * vector2.z - vector1.z * vector2.y;
    product.y := -(vector1.x * vector2.z - vector1.z * vector2.x);
    product.z := vector1.x * vector2.y - vector1.y * vector2.x;
  }

  // ---------------------------------------------------------------------
  // Matrix operations

  /** `multiplyMatrixTimesVector`: scales private copies of the columns by
      the vector's components and writes their sum into `product`. Everything
      is read before `product` is written, so `product` may be `vector` or a
      column of `matrix`; only `product` changes. */
  method MultiplyMatrixTimesVector(matrix: Matrix, vector: Vector, product: Vector)
    modifies product
    ensures product.Value() == Apply(old(matrix.Value()), old(vector.Value()))
  {
    var scaledVector1 := new Vector(matrix.c1.Value());
    var scaledVector2 := new Vector(matrix.c2.Value());
    var scaledVector3 := new Vector(matrix.c3.Value());

    ScaleVector(scaledVector1, vector.x);
    ScaleVector(scaledVector2, vector.y);
    ScaleVector(scaledVector3, vector.z);

    product.x := scaledVector1.x + scaledVector2.x + scaledVector3.x;
    product.y := scaledVector1.y + scaledVector2.y + scaledVector3.y;
    product.z := scaledVector1.z + scaledVector2.z + scaledVector3.z;
  }

  /** `addMatrices`: adds the columns pairwise into `sum`; `sum` may be
      either input. */
  method AddMatrices(matrix1: Matrix, matrix2: Matrix, sum: Matrix)
    requires Embedded(matrix1, sum) && Embedded(matrix2, sum)
    modifies sum.Columns()
    ensures sum.Value() == MatSum(old(matrix1.Value()), old(matrix2.Value()))
  {
    AddVectors(matrix1.c1, matrix2.c1, sum.c1);
    AddVectors(matrix1.c2, matrix2.c2, sum.c2);
    AddVectors(matrix1.c3, matrix2.c3, sum.c3);
  }

  /** `multiplyMatrices`: column j of `product` is `matrix1` times column j
      of `matrix2`, computed left to right. `matrix1` is read again after
      `product`'s first column is written, so `product` must not be
      `matrix1`; it may be `matrix2`. */
  method MultiplyMatrices(matrix1: Matrix, matrix2: Matrix, product: Matrix)
    requires Embedded(matrix1, product) && Embedded(matrix2, product)
    requires product != matrix1
    modifies product.Columns()
    ensures product.Value() == Product(old(matrix1.Value()), old(matrix2.Value()))
  {
    MultiplyMatrixTimesVector(matrix1, matrix2.c1, product.c1);
    MultiplyMatrixTimesVector(matrix1, matrix2.c2, product.c2);
    MultiplyMatrixTimesVector(matrix1, matrix2.c3, product.c3);
  }

  /** `transposeMatrix`: row i of `matrix` becomes column i of `transpose`,
      one whole column at a time. The first column written is read again for
      the second, so `transpose` must not be `matrix`. */
  method TransposeMatrix(matrix: Matrix, transpose: Matrix)
    requires Embedded(matrix, transpose) && transpose != matrix
    modifies transpose.Columns()
    ensures transpose.Value() == Transposed(old(matrix.Value()))
  {
    transpose.c1.Assign(Vec3(matrix.c1.x, matrix.c2.x, matrix.c3.x));
    transpose.c2.Assign(Vec3(matrix.c1.y, matrix.c2.y, matrix.c3.y));
    transpose.c3.Assign(Vec3(matrix.c1.z, matrix.c2.z, matrix.c3.z));
  }

  // ---------------------------------------------------------------------
  // Callers: the literal cases of the library's test driver, checked against
  // the contracts of the methods above, and the aliasing each method permits.

  method ScaleVectorCases() {
    var v1 := new Vector(Vec3(1, 2, 4));
    ScaleVector(v1, 0);
    assert v1.Value() == Zero;
    var v2 := new Vector(Zero);
    ScaleVector(v2, 5);
    assert v2.Value() == Zero;
    var v3 := new Vector(Vec3(5, 4, 7));
    ScaleVector(v3, 1);
    assert v3.Value() == Vec3(5, 4, 7);
    var v4 := new Vector(Vec3(1, 1, 1));
    ScaleVector(v4, 2);
    assert v4.Value() == Vec3(2, 2, 2);
    var v := new Vector(Vec3(4, 1, 2));
    ScaleVector(v, 3);
    assert v.Value() == Vec3(12, 3, 6);
    ScaleVector(v, 1);
    assert v.Value() == Vec3(12, 3, 6);
    var w := new Vector(Vec3(6, 9, 1));
    ScaleVector(w, -2);
    assert v.Value() == Vec3(12, 3, 6) && w.Value() == Vec3(-12, -18, -2);
    ScaleVector(w, 0);
    assert w.Value() == Zero;
  }

  /** The cases with a zero first input. */
  method AddVectorsZeroCases() {
    var o := new Vector(Zero);
    var e := new Vector(Vec3(1, 5, 3));
    var t := new Vector(Zero);
    AddVectors(o, e, t);
    assert t.Value() == Vec3(1, 5, 3);
    e.Assign(Vec3(0, 0, 1));
    AddVectors(o, e, t);
    assert t.Value() == Vec3(0, 0, 1);
    e.Assign(Vec3(0, 1, 0));
    AddVectors(o, e, t);
    assert t.Value() == Vec3(0, 1, 0);
    e.Assign(Vec3(1, 0, 0));
    AddVectors(o, e, t);
    assert t.Value() == Vec3(1, 0, 0);
  }

  method AddVectorsAliasCases() {
    var a := new Vector(Vec3(1, 3, 5));
    var b := new Vector(Vec3(2, 2, 2));
    var s := new Vector(Zero);
    AddVectors(a, b, s);
    assert s.Value() == Vec3(3, 5, 7);
    assert a.Value() == Vec3(1, 3, 5) && b.Value() == Vec3(2, 2, 2);
    // accumulating into the first input
    AddVectors(a, b, a);
    assert a.Value() == Vec3(3, 5, 7);
  }

  method CrossProductCases() {
    var a := new Vector(Vec3(4, -1, 2));
    var b := new Vector(Vec3(5, 5, 2));
    var p := new Vector(Zero);
    CrossProduct(a, b, p);
    assert p.Value() == Vec3(-12, 2, 25);
  }

  method MatrixTimesVectorCases() {
    var m := new Matrix(Mat3(Vec3(8, 2, 7), Vec3(1, 1, -8), Vec3(1, 7, 3)));
    var v := new Vector(Vec3(1, 5, 9));
    var p := new Vector(Zero);
    MultiplyMatrixTimesVector(m, v, p);
    assert p.Value() == Vec3(22, 70, -6);
    assert m.Value() == Mat3(Vec3(8, 2, 7), Vec3(1, 1, -8), Vec3(1, 7, 3));
    // the product may replace the vector itself
    MultiplyMatrixTimesVector(m, v, v);
    assert v.Value() == Vec3(22, 70, -6);
  }

  method AddMatricesCases() {
    var a := new Matrix(Mat3(Vec3(1, 4, 7), Vec3(2, 5, 8), Vec3(3, 6, 9)));
    var b := new Matrix(Mat3(Vec3(9, 6, 3), Vec3(8, 5, 2), Vec3(7, 4, 1)));
    var s := new Matrix(ZeroMatrix);
    AddMatrices(a, b, s);
    assert s.Value() == Mat3(Vec3(10, 10, 10), Vec3(10, 10, 10), Vec3(10, 10, 10));
  }

  method TransposeMatrixCases() {
    var a := new Matrix(Mat3(Vec3(1, 4, 7), Vec3(2, 5, 8), Vec3(3, 6, 9)));
    var t := new Matrix(ZeroMatrix);
    TransposeMatrix(a, t);
    assert t.Value() == Mat3(Vec3(1, 2, 3), Vec3(4, 5, 6), Vec3(7, 8, 9));
  }

  method MultiplyMatricesCases(m: Mat3) {
    // the product may replace the second factor
    var i := new Matrix(Identity);
    var a := new Matrix(m);
    MultiplyMatrices(i, a, a);
    ProductIdentity(m);
    assert a.Value() == m;
  }
}
