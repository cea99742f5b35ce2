# c-lin-alg in Dafny

A verified model of a small C linear-algebra library. The library works on
3-component integer vectors and on 3x3 integer matrices. A matrix is stored
as three column vectors `c1`, `c2` and `c3`. The library provides these
operations:

- vector equality, in-place scaling, addition, dot product and cross product;
- matrix times vector, matrix equality, addition, multiplication, transpose
  and determinant.

The project has three modules:

- `Vectors` (`vectors.dfy`) holds the `Vec3` value type. It also holds the
  pure vector operations, `VectorsEqual` and `Dot`, and the value-level
  specifications of the vector operations that write through pointers:
  `Scaled`, `Sum` and `Cross`. Lemmas state their algebra.
- `Matrices` (`matrices.dfy`) does the same for `Mat3`. The pure operations
  are `MatricesEqual` and `Det`. The specifications are `Apply` (matrix times
  vector), `MatSum`, `Product` and `Transposed`. It proves that the product is
  associative with the identity as a unit, that transposing twice gives the
  original matrix, and that det(identity) = 1, det(transpose(m)) = det(m) and
  det(a·b) = det(a)·det(b).
- `LinAlg` (`linalg.dfy`) holds the C functions that change state, written as
  methods over heap objects:
  - A `Vector` object is the storage of one `Vector` struct.
  - A `Matrix` object owns its three column `Vector` objects, in the same way
    the struct embeds them. So a method can be handed a column, as
    `&matrix->c1` is handed on in the C code.
  - Each method's postcondition ties the new contents of its output to the
    value-level specification of the old contents of its inputs.
  - Some outputs may alias an input: `addVectors`, `addMatrices`,
    `multiplyMatrixTimesVector`, and `multiplyMatrices` through its second
    factor. For these, the contract is stated with `old` and the method has
    no aliasing precondition beyond the layout predicate `Embedded`
    (described under "Left out"). This shows that the aliased call is also
    correct.
  - Some outputs must not alias an input, because the C write order lets a
    write corrupt a later read. This is the case for `crossProduct`,
    `transposeMatrix`, and `multiplyMatrices` through its first factor. For
    these, the method requires the output to be separate. Removing any one
    of these preconditions makes the method's proof fail.

The four C functions that only read (`areVectorsEqual`, `dotProduct`,
`areMatricesEqual` and `getDeterminant`) are modelled on the values their
pointers refer to. Components are unbounded integers.

## Model

| member | source | states |
|---|---|---|
| `Vectors.VectorsEqual` | src/linalg.c:13-15 | true exactly when x, y and z agree pairwise, i.e. when the vectors are equal |
| `Vectors.VectorsEqualReflexive` | src/linalg.c:13-15 | every vector is equal to itself |
| `Vectors.VectorsEqualSymmetric` | src/linalg.c:13-15 | the comparison does not depend on argument order |
| `Vectors.Scaled` | src/linalg.c:18-22 | the value `scaleVector` leaves in its argument: each component times the scalar (no contract of its own; the lemmas below state its algebra) |
| `Vectors.ScaleByOne` | src/linalg.c:18-22 | scaling by 1 leaves the vector unchanged |
| `Vectors.ScaleByZero` | src/linalg.c:18-22 | scaling by 0 gives the zero vector |
| `Vectors.ScaleTwice` | src/linalg.c:18-22 | scaling by a then by b is scaling by a·b |
| `Vectors.Sum` | src/linalg.c:25-29 | the value `addVectors` writes: the componentwise sum (no contract of its own; the lemmas below state its algebra) |
| `Vectors.SumCommutative` | src/linalg.c:25-29 | vector addition is commutative |
| `Vectors.SumAssociative` | src/linalg.c:25-29 | vector addition is associative |
| `Vectors.SumZero` | src/linalg.c:25-29 | the zero vector is a two-sided identity of addition |
| `Vectors.SumNegated` | src/linalg.c:25-29 | adding the vector scaled by -1 gives the zero vector |
| `Vectors.Dot` | src/linalg.c:32-36 | the value `dotProduct` returns, x1·x2 + y1·y2 + z1·z2 (no contract of its own; the lemmas below state its algebra) |
| `Vectors.DotCommutative` | src/linalg.c:32-36 | the dot product is commutative |
| `Vectors.DotZero` | src/linalg.c:32-36 | the dot product with the zero vector, on either side, is 0 |
| `Vectors.DotLinear` | src/linalg.c:32-36 | the dot product is linear in its first argument |
| `Vectors.DotSelf` | src/linalg.c:4-10 | the squared magnitude x² + y² + z² is at least 0, and is 0 exactly for the zero vector |
| `Vectors.Cross` | src/linalg.c:40-44 | the value `crossProduct` writes, with the middle component as the negated difference (no contract of its own; the lemmas below state its algebra) |
| `Vectors.CrossAnticommutative` | src/linalg.c:40-44 | cross(a, b) is cross(b, a) scaled by -1 |
| `Vectors.CrossSelf` | src/linalg.c:40-44 | cross(a, a) is the zero vector |
| `Vectors.CrossParallel` | src/linalg.c:40-44 | the cross product of a vector and a multiple of it, in either order, is the zero vector |
| `Vectors.CrossZero` | src/linalg.c:40-44 | the cross product with the zero vector, in either order, is the zero vector |
| `Vectors.CrossScaledLeft` | src/linalg.c:40-44 | scaling the first argument by p scales the cross product by p |
| `Vectors.ScaledToZero` | src/linalg.c:18-22 | a vector that a non-zero scalar scales to zero is the zero vector |
| `Vectors.CrossParallelGeneral` | src/linalg.c:40-44 | whenever p·a = q·b with p and q not both 0, cross(a, b) is the zero vector |
| `Vectors.CrossOrthogonal` | src/linalg.c:40-44 | the cross product has dot product 0 with each input |
| `Vectors.EqualityExamples` | src/tests.c:18-27 | all seven equality cases of the test driver |
| `Vectors.ScaledExamples` | src/tests.c:29-53 | all six scaling cases of the test driver, on the vector the in-place update leaves |
| `Vectors.SumExamples` | src/tests.c:55-75 | all five vector-addition cases of the test driver |
| `Vectors.SquaredMagnitudeExamples` | src/tests.c:10-15 | the four non-zero magnitude cases, squared: 3·√2 squares to 18 and 5·√2 to 50 |
| `Vectors.DotExamples` | src/tests.c:79-83 | the four dot-product cases of the test driver with non-zero arguments |
| `Vectors.DotZeroExamples` | src/tests.c:78-80 | the two dot-product cases with a zero argument give 0; the first is also the zero vector's squared magnitude (src/tests.c:9) |
| `Vectors.CrossExamples` | src/tests.c:91-97 | the two cross-product cases of the test driver with non-zero arguments |
| `Vectors.CrossZeroExample` | src/tests.c:87-89 | the cross product of two zero vectors is the zero vector |
| `Matrices.MatricesEqual` | src/linalg.c:64-66 | true exactly when all three columns are vector-equal, i.e. when the matrices are equal |
| `Matrices.MatricesEqualReflexive` | src/linalg.c:64-66 | every matrix is equal to itself |
| `Matrices.MatricesEqualSymmetric` | src/linalg.c:64-66 | the comparison does not depend on argument order |
| `Matrices.MatricesEqualEntries` | src/linalg.c:64-66 | matrices are equal exactly when all nine entries agree |
| `Matrices.Apply` | src/linalg.c:47-61 | the sum of the scaled columns has, as component i, row i of the matrix dotted with the vector |
| `Matrices.ApplyZero` | src/linalg.c:47-61 | any matrix maps the zero vector to zero, and the zero matrix maps any vector to zero |
| `Matrices.ApplyIdentity` | src/linalg.c:47-61 | the identity matrix maps every vector to itself |
| `Matrices.ApplyLinear` | src/linalg.c:47-61 | matrix times vector is linear in the vector |
| `Matrices.ApplyProduct` | src/linalg.c:76-80 | multiplying a vector by a product is multiplying it by the second factor, then by the first |
| `Matrices.MatSum` | src/linalg.c:69-73 | the columnwise sum has, as each entry (i, j), the sum of the two entries (i, j) |
| `Matrices.MatSumCommutative` | src/linalg.c:69-73 | matrix addition is commutative |
| `Matrices.MatSumAssociative` | src/linalg.c:69-73 | matrix addition is associative |
| `Matrices.MatSumZero` | src/linalg.c:69-73 | the zero matrix is a two-sided identity of addition |
| `Matrices.Product` | src/linalg.c:76-80 | the value `multiplyMatrices` writes: column j is the first matrix applied to column j of the second (no contract of its own; the lemmas below state its algebra) |
| `Matrices.ProductEntry` | src/linalg.c:76-80 | the column-by-column product has entry (i, j) equal to the sum over k of a(i,k)·b(k,j) |
| `Matrices.ProductIdentity` | src/linalg.c:76-80 | the identity matrix is a two-sided unit of multiplication |
| `Matrices.ProductAssociative` | src/linalg.c:76-80 | matrix multiplication is associative |
| `Matrices.ProductZero` | src/linalg.c:76-80 | multiplying by the zero matrix, on either side, gives the zero matrix |
| `Matrices.Transposed` | src/linalg.c:83-87 | writing row i as column i gives a matrix whose entry (i, j) is entry (j, i) of the input |
| `Matrices.TransposeInvolution` | src/linalg.c:83-87 | transposing twice gives back the original matrix |
| `Matrices.TransposeIdentity` | src/linalg.c:83-87 | the identity matrix is its own transpose |
| `Matrices.TransposeProduct` | src/linalg.c:83-87 | the transpose of a·b is transpose(b)·transpose(a) |
| `Matrices.Det` | src/linalg.c:90-97 | the value `getDeterminant` returns: the first-row cofactor expansion (no contract of its own; the lemmas below state its algebra) |
| `Matrices.DetTripleProduct` | src/linalg.c:90-97 | the first-row cofactor expansion equals c1 · (c2 × c3) |
| `Matrices.DetIdentity` | src/linalg.c:90-97 | det(identity) = 1 |
| `Matrices.DetTranspose` | src/linalg.c:90-97 | det(transpose(m)) = det(m) |
| `Matrices.DetCyclic` | src/linalg.c:90-97 | rotating the columns leaves the determinant unchanged |
| `Matrices.DetColumns` | src/linalg.c:90-97 | expanding along the second or the third column gives that column dotted with the cross product of the other two, in cyclic order (the first column is `DetTripleProduct`) |
| `Matrices.DetAlternating` | src/linalg.c:90-97 | swapping any two columns negates the determinant |
| `Matrices.DetRepeated` | src/linalg.c:90-97 | a matrix with two equal columns has determinant 0 |
| `Matrices.DetOfColumns` | src/linalg.c:90-97 | three columns of m, taken as columns i, j, k, have determinant sign(i, j, k)·det(m) |
| `Matrices.DetMultiplicative` | src/linalg.c:90-97 | det(a·b) = det(a)·det(b) |
| `Matrices.MatricesEqualExamples` | src/tests.c:100-165 | all five matrix-equality cases of the test driver |
| `Matrices.ApplyExamples` | src/tests.c:167-191 | all three matrix-times-vector cases of the test driver |
| `Matrices.MatSumExamples` | src/tests.c:193-215 | the matrix-addition case of the test driver |
| `Matrices.ProductExamples` | src/tests.c:217-283 | all three matrix-product cases of the test driver |
| `Matrices.TransposedExamples` | src/tests.c:285-321 | both transpose cases of the test driver |
| `Matrices.DetExamples` | src/tests.c:323-363 | all five determinant cases of the test driver |
| `LinAlg.Vector.constructor` | src/linalg.h:5-9 | a vector holding the given components |
| `LinAlg.Vector.Assign` | src/linalg.c:84-86 | whole-struct assignment replaces all three components with the given values |
| `LinAlg.Matrix.constructor` | src/linalg.h:12-16 | a matrix with three fresh, separate columns holding the given matrix |
| `LinAlg.ScaleVector` | src/linalg.c:18-22 | the argument, in place, becomes its old value times the scalar; nothing else changes |
| `LinAlg.AddVectors` | src/linalg.c:25-29 | `sum` becomes the componentwise sum of the old inputs, even when it is one of them; nothing else changes |
| `LinAlg.CrossProduct` | src/linalg.c:40-44 | for an output separate from both inputs, `product` becomes their cross product; nothing else changes |
| `LinAlg.MultiplyMatrixTimesVector` | src/linalg.c:47-61 | `product` becomes old v.x·c1 + v.y·c2 + v.z·c3, even when it is the vector or a column of the matrix; only `product` changes |
| `LinAlg.AddMatrices` | src/linalg.c:69-73 | `sum` becomes the columnwise sum of the old inputs, even when it is one of them; only its columns change |
| `LinAlg.MultiplyMatrices` | src/linalg.c:76-80 | for an output other than the first factor, column i of `product` becomes the first factor times old column i of the second; only its columns change |
| `LinAlg.TransposeMatrix` | src/linalg.c:83-87 | for an output other than the input, `transpose` becomes the transpose of the input; only its columns change |

## Left out

- `getVectorMagnitude` (src/linalg.c:4-10) takes a square root over `double`, which is floating-point arithmetic. Only the integer squared magnitude is modelled (`Vectors.DotSelf`).
- `dotProduct` and `getDeterminant` return `double`. `dotProduct`'s value and `getDeterminant`'s three partial products (src/linalg.c:92-94) are computed in `int`. The final `iComponent - jComponent + kComponent` (src/linalg.c:96) is taken in `double`, where it is exact for parts in `int` range. So both are modelled as integers, and the conversions are not modelled.
- C `int` overflow is undefined behaviour. The model uses unbounded integers, so none of its results wrap.
- `LinAlg.CrossProduct`: the result for an output that aliases an input is not described. It is excluded by the precondition, because the write of `product->x` corrupts the later reads of the input's `x`.
- `LinAlg.TransposeMatrix`: the result for an output that is the input matrix is not described. It is excluded by the precondition, because the first column written is read again for the second and third.
- `LinAlg.MultiplyMatrices`: the result for an output that is the first factor is not described. It is excluded by the precondition, because the first factor is read again after the product's first column is written.
- `LinAlg.Embedded`, a precondition of `AddMatrices`, `MultiplyMatrices` and `TransposeMatrix`, is not a demand of the source. It models C's layout: a `Matrix` struct embeds its columns, so two matrices share storage only when they are the same matrix. Two distinct `Matrix` objects that share a column object cannot arise in C.
- The test driver `src/tests.c` is not modelled as a program. This covers its `assert`/`printf`/`fabs` calls with the `FLOAT_THRESH` tolerance, and `main`. Every one of its literal cases appears as an ensures of the `...Examples` lemmas: the equality, scaling, addition, dot, cross, matrix-equality, matrix-times-vector, matrix-addition, product, transpose and determinant cases as they are, and the magnitude cases squared (`Vectors.SquaredMagnitudeExamples` and the zero-vector case of `Vectors.DotZeroExamples`), since `getVectorMagnitude` itself is left out. The `...Cases` caller methods in `LinAlg` check all the scaling, vector-addition and matrix-addition cases, and one case each of cross product, matrix times vector and transpose, against the methods' contracts. They also make calls that are not in the driver: two further scalings of an already scaled vector (by 1 and by 0), and the aliased calls `AddVectors(a, b, a)`, `MultiplyMatrixTimesVector(m, v, v)` and `MultiplyMatrices(i, a, a)`, which exercise the aliasing the contracts permit. Its `testScaleVector` calls `scaleVector` with three arguments, which does not match the two-argument in-place function in src/linalg.h:21 and src/linalg.c:18-22. The model follows the function as defined.
- The header's `#include <stdio.h>` and `#include <math.h>` are not modelled, because they are plumbing.
- `addVectors` and `addMatrices` stay correct when the output is one of the inputs, and `multiplyMatrices` stays correct when the output is its second factor; the contracts cover these calls.
