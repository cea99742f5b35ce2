/** Value-level model of the library's three-component integer vector and of
    the vector operations: the pure ones (equality, dot product) as they are,
    and the specifications of the ones that write through pointers (scaling,
    addition, cross product), which the class layer in module LinAlg is
    proved against. Components are unbounded integers. */
module Vectors {

  /** The `Vector` struct: three integer components. */
  datatype Vec3 = Vec3(x: int, y: int, z: int)

  const Zero: Vec3 := Vec3(0, 0, 0)

  /** Component `i` (0 for x, 1 for y, 2 for z). */
  function Component(v: Vec3, i: nat): int
    requires i < 3
  {
    if i == 0 then v.x else if i == 1 then v.y else v.z
  }

  /** `areVectorsEqual`: exact componentwise comparison. */
  function VectorsEqual(v1: Vec3, v2: Vec3): (r: bool)
    ensures r <==> v1 == v2
  {
    v1.x == v2.x && v1.y == v2.y && v1.z == v2.z
  }

  /** What `scaleVector` leaves in its argument. */
  function Scaled(v: Vec3, scalar: int): Vec3 {
    Vec3(v.x * scalar, v.y * scalar, v.z * scalar)
  }

  /** What `addVectors` writes into its output. */
  function Sum(v1: Vec3, v2: Vec3): Vec3 {
    Vec3(v1.x + v2.x, v1.y + v2.y, v1.z + v2.z)
  }

  /** `dotProduct` (its value is integral; the `double` return is not modelled). */
  function Dot(v1: Vec3, v2: Vec3): int {
    v1.x * v2.x + v1.y * v2.y + v1.z * v2.z
  }

  /** What `crossProduct` writes into its output, with the middle component
      written as the negated difference, as the library does. */
  function Cross(v1: Vec3, v2: Vec3): Vec3 {
    Vec3(v1.y * v2.z - v1.z * v2.y,
         -(v1.x * v2.z - v1.z * v2.x),
         v1.x * v2.y - v1.y * v2.x)
  }

  // ---------------------------------------------------------------------
  // Equality

  lemma VectorsEqualReflexive(v: Vec3)
    ensures VectorsEqual(v, v)
  {
  }

  lemma VectorsEqualSymmetric(v1: Vec3, v2: Vec3)
    ensures VectorsEqual(v1, v2) == VectorsEqual(v2, v1)
  {
  }

  // ---------------------------------------------------------------------
  // Scaling

  lemma ScaleByOne(v: Vec3)
    ensures Scaled(v, 1) == v
  {
  }

  lemma ScaleByZero(v: Vec3)
    ensures Scaled(v, 0) == Zero
  {
  }

  /** Scaling twice is scaling once by the product of the scalars. */
  lemma ScaleTwice(v: Vec3, a: int, b: int)
    ensures Scaled(Scaled(v, a), b) == Scaled(v, a * b)
  {
  }

  // ---------------------------------------------------------------------
  // Addition

  lemma SumCommutative(v1: Vec3, v2: Vec3)
    ensures Sum(v1, v2) == Sum(v2, v1)
  {
  }

  lemma SumAssociative(v1: Vec3, v2: Vec3, v3: Vec3)
    ensures Sum(Sum(v1, v2), v3) == Sum(v1, Sum(v2, v3))
  {
  }

  /** The zero vector is a two-sided identity of addition. */
  lemma SumZero(v: Vec3)
    ensures Sum(Zero, v) == v && Sum(v, Zero) == v
  {
  }

  /** Adding the vector scaled by -1 gives the zero vector. */
  lemma SumNegated(v: Vec3)
    ensures Sum(v, Scaled(v, -1)) == Zero
  {
  }

  // ---------------------------------------------------------------------
  // Dot product

  lemma DotCommutative(v1: Vec3, v2: Vec3)
    ensures Dot(v1, v2) == Dot(v2, v1)
  {
  }

  lemma DotZero(v: Vec3)
    ensures Dot(v, Zero) == 0 && Dot(Zero, v) == 0
  {
  }

  /** The dot product is linear in its first argument. */
  lemma DotLinear(u: Vec3, v: Vec3, w: Vec3, a: int, b: int)
    ensures Dot(Sum(Scaled(u, a), Scaled(v, b)), w) == a * Dot(u, w) + b * Dot(v, w)
  {
  }

  /** The squared magnitude x² + y² + z², the integral part of
      `getVectorMagnitude`, is never negative and is zero only for the zero
      vector. */
  lemma DotSelf(v: Vec3)
    ensures Dot(v, v) >= 0
    ensures Dot(v, v) == 0 <==> v == Zero
  {
  }

  // ---------------------------------------------------------------------
  // Cross product

  /** cross(a, b) = -cross(b, a). */
  lemma CrossAnticommutative(v1: Vec3, v2: Vec3)
    ensures Cross(v1, v2) == Scaled(Cross(v2, v1), -1)
  {
  }

  lemma CrossSelf(v: Vec3)
    ensures Cross(v, v) == Zero
  {
  }

  /** The cross product of parallel vectors (one a multiple of the other,
      the zero vector included) is the zero vector. */
  lemma CrossParallel(v: Vec3, k: int)
    ensures Cross(v, Scaled(v, k)) == Zero && Cross(Scaled(v, k), v) == Zero
  {
  }

  lemma CrossZero(v: Vec3)
    ensures Cross(v, Zero) == Zero && Cross(Zero, v) == Zero
  {
  }

  /** Scaling the first argument scales the cross product. */
  lemma CrossScaledLeft(a: Vec3, b: Vec3, p: int)
    ensures Cross(Scaled(a, p), b) == Scaled(Cross(a, b), p)
  {
  }

  /** Only the zero vector scales to zero by a non-zero scalar. */
  lemma ScaledToZero(v: Vec3, k: int)
    requires k != 0
    requires Scaled(v, k) == Zero
    ensures v == Zero
  {
  }

  /** The cross product of any two parallel vectors is the zero vector:
      whenever some non-trivial combination p·a = q·b holds. */
  lemma CrossParallelGeneral(a: Vec3, b: Vec3, p: int, q: int)
    requires p != 0 || q != 0
    requires Scaled(a, p) == Scaled(b, q)
    ensures Cross(a, b) == Zero
  {
    if p == 0 {
      ScaleByZero(a);
      ScaledToZero(b, q);
      CrossZero(a);
    } else {
      CrossScaledLeft(a, b, p);
      CrossParallel(b, q);
      ScaledToZero(Cross(a, b), p);
    }
  }

  /** The cross product is orthogonal to both of its arguments. */
  lemma CrossOrthogonal(v1: Vec3, v2: Vec3)
    ensures Dot(v1, Cross(v1, v2)) == 0
    ensures Dot(v2, Cross(v1, v2)) == 0
  {
  }

  // ---------------------------------------------------------------------
  // The literal cases of the library's test driver

  lemma EqualityExamples()
    ensures !VectorsEqual(Vec3(0, 0, 0), Vec3(1, 5, 6))
    ensures VectorsEqual(Vec3(2, 1, 8), Vec3(2, 1, 8))
    ensures VectorsEqual(Vec3(0, 0, 0), Vec3(0, 0, 0))
    ensures VectorsEqual(Vec3(-5, 1, 2), Vec3(-5, 1, 2))
    ensures !VectorsEqual(Vec3(5, 1, 2), Vec3(5, 1, 1))
    ensures !VectorsEqual(Vec3(5, 1, 2), Vec3(5, 0, 2))
    ensures !VectorsEqual(Vec3(5, 1, 2), Vec3(0, 1, 2))
  {
  }

  /** The scaling cases, on the vector the in-place update leaves. */
  lemma ScaledExamples()
    ensures Scaled(Vec3(1, 2, 4), 0) == Zero
    ensures Scaled(Zero, 5) == Zero
    ensures Scaled(Vec3(5, 4, 7), 1) == Vec3(5, 4, 7)
    ensures Scaled(Vec3(1, 1, 1), 2) == Vec3(2, 2, 2)
    ensures Scaled(Vec3(4, 1, 2), 3) == Vec3(12, 3, 6)
    ensures Scaled(Vec3(6, 9, 1), -2) == Vec3(-12, -18, -2)
  {
  }

  lemma SumExamples()
    ensures Sum(Zero, Vec3(1, 5, 3)) == Vec3(1, 5, 3)
    ensures Sum(Vec3(1, 3, 5), Vec3(2, 2, 2)) == Vec3(3, 5, 7)
    ensures Sum(Zero, Vec3(0, 0, 1)) == Vec3(0, 0, 1)
    ensures Sum(Zero, Vec3(0, 1, 0)) == Vec3(0, 1, 0)
    ensures Sum(Zero, Vec3(1, 0, 0)) == Vec3(1, 0, 0)
  {
  }

  /** The non-zero magnitude cases, squared: (3·√2)² = 18 and (5·√2)² = 50.
      The zero vector's case is the first of DotZeroExamples. */
  lemma SquaredMagnitudeExamples()
    ensures Dot(Vec3(4, 1, 1), Vec3(4, 1, 1)) == 18
    ensures Dot(Vec3(3, 4, 5), Vec3(3, 4, 5)) == 50
    ensures Dot(Vec3(-4, 1, 1), Vec3(-4, 1, 1)) == 18
    ensures Dot(Vec3(-3, -4, 5), Vec3(-3, -4, 5)) == 50
  {
  }

  lemma DotExamples()
    ensures Dot(Vec3(1, 5, 6), Vec3(4, 2, 1)) == 20
    ensures Dot(Vec3(7, 0, 0), Vec3(0, 7, 0)) == 0
    ensures Dot(Vec3(7, -4, 0), Vec3(2, 7, -1)) == -14
    ensures Dot(Vec3(0, -1, 3), Vec3(5, 5, -5)) == -20
  {
    assert Dot(Vec3(1, 5, 6), Vec3(4, 2, 1)) == 4 + 10 + 6;
    assert Dot(Vec3(7, -4, 0), Vec3(2, 7, -1)) == 14 - 28 + 0;
    assert Dot(Vec3(0, -1, 3), Vec3(5, 5, -5)) == 0 - 5 - 15;
  }

  /** The dot-product cases with a zero argument; the first is also the
      squared magnitude of the zero vector. */
  lemma DotZeroExamples()
    ensures Dot(Zero, Zero) == 0
    ensures Dot(Vec3(1, 5, 6), Zero) == 0
  {
    DotZero(Zero);
    DotZero(Vec3(1, 5, 6));
  }

  lemma CrossExamples()
    ensures Cross(Vec3(4, -1, 2), Vec3(5, 5, 2)) == Vec3(-12, 2, 25)
    ensures Cross(Vec3(-1, 1, 1), Vec3(1, -1, 1)) == Vec3(2, 2, 0)
  {
  }

  /** The cross-product case of two zero vectors. */
  lemma CrossZeroExample()
    ensures Cross(Zero, Zero) == Zero
  {
    CrossZero(Zero);
  }
}
