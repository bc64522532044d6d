/**
 * The tensor operations the residual kernels and the training step are built
 * from, over exact reals: finite sums, the batched matrix-vector product
 * (tf.linalg.matvec), the 2-D transpose, element-wise arithmetic, squaring and
 * the two mean reductions (along axis 0, and over all entries).
 *
 * A matrix is a sequence of rows and a rank-3 tensor a sequence of matrices;
 * IsMatrix and IsTensor3 say that they are rectangular with the given shape.
 */
module TensorOps {

  type Vector = seq<real>
  type Matrix = seq<seq<real>>
  type Tensor3 = seq<seq<seq<real>>>

  /** The length of the first row, which is the width of a rectangular matrix (0 when there are no rows). */
  function Width(m: Matrix): nat {
    if |m| == 0 then 0 else |m[0]|
  }

  predicate IsMatrix(m: Matrix, rows: nat, cols: nat) {
    |m| == rows && forall i | 0 <= i < rows :: |m[i]| == cols
  }

  predicate IsTensor3(a: Tensor3, d0: nat, d1: nat, d2: nat) {
    |a| == d0 && forall i | 0 <= i < d0 :: IsMatrix(a[i], d1, d2)
  }

  /**
   * A test-function tensor g of shape (e, t, Q) and a field v of shape (e, Q)
   * that can be contracted over their common quadrature axis Q.
   */
  predicate Contractible(g: Tensor3, v: Matrix, e: nat, t: nat) {
    IsMatrix(v, e, Width(v)) && IsTensor3(g, e, t, Width(v))
  }

  function Sum(v: Vector): real {
    if |v| == 0 then 0.0 else v[0] + Sum(v[1..])
  }

  function Dot(a: Vector, b: Vector): real
    requires |a| == |b|
  {
    if |a| == 0 then 0.0 else a[0] * b[0] + Dot(a[1..], b[1..])
  }

  function Mean(v: Vector): real
    requires |v| > 0
  {
    Sum(v) / |v| as real
  }

  /** The entries of column j, top to bottom. */
  function Column(m: Matrix, j: nat): (c: Vector)
    requires forall i | 0 <= i < |m| :: j < |m[i]|
    ensures |c| == |m|
    ensures forall i | 0 <= i < |m| :: c[i] == m[i][j]
  {
    seq(|m|, i requires 0 <= i < |m| => m[i][j])
  }

  /** The mean of the squares of the entries of v. */
  function MeanOfSquares(v: Vector): real
    requires |v| > 0
  {
    Mean(seq(|v|, i requires 0 <= i < |v| => v[i] * v[i]))
  }

  /** tf.linalg.matvec on a batch: a (E, T, Q) tensor times a (E, Q) matrix gives (E, T). */
  function MatVec(a: Tensor3, b: Matrix): (r: Matrix)
    requires |a| == |b|
    requires forall e, t | 0 <= e < |a| && 0 <= t < |a[e]| :: |a[e][t]| == |b[e]|
    ensures |r| == |a|
    ensures forall e | 0 <= e < |a| :: |r[e]| == |a[e]|
    ensures forall e, t | 0 <= e < |a| && 0 <= t < |a[e]| :: r[e][t] == Dot(a[e][t], b[e])
  {
    seq(|a|, e requires 0 <= e < |a| =>
      seq(|a[e]|, t requires 0 <= t < |a[e]| => Dot(a[e][t], b[e])))
  }

  /** tf.transpose of a rows-by-cols matrix; cols is passed so that a matrix with no rows keeps its width. */
  function Transpose(m: Matrix, cols: nat): (r: Matrix)
    requires IsMatrix(m, |m|, cols)
    ensures IsMatrix(r, cols, |m|)
    ensures forall j, i | 0 <= j < cols && 0 <= i < |m| :: r[j][i] == m[i][j]
  {
    seq(cols, j requires 0 <= j < cols => seq(|m|, i requires 0 <= i < |m| => m[i][j]))
  }

  /**
   * The weighted test-function contraction shared by every kernel,
   * tf.transpose(tf.linalg.matvec(g, v)): entry [i][j] is the sum over the
   * quadrature points q of g[j][i][q] * v[j][q], for test function i of element j.
   */
  function Contract(g: Tensor3, v: Matrix, e: nat, t: nat): (r: Matrix)
    requires Contractible(g, v, e, t)
    ensures IsMatrix(r, t, e)
    ensures forall i, j | 0 <= i < t && 0 <= j < e :: r[i][j] == Dot(g[j][i], v[j])
  {
    Transpose(MatVec(g, v), t)
  }

  predicate SameShape(a: Matrix, b: Matrix) {
    |a| == |b| && forall i | 0 <= i < |a| :: |a[i]| == |b[i]|
  }

  function Add(a: Matrix, b: Matrix): (r: Matrix)
    requires SameShape(a, b)
    ensures SameShape(r, a)
    ensures forall i, j | 0 <= i < |a| && 0 <= j < |a[i]| :: r[i][j] == a[i][j] + b[i][j]
  {
    seq(|a|, i requires 0 <= i < |a| =>
      seq(|a[i]|, j requires 0 <= j < |a[i]| => a[i][j] + b[i][j]))
  }

  function Sub(a: Matrix, b: Matrix): (r: Matrix)
    requires SameShape(a, b)
    ensures SameShape(r, a)
    ensures forall i, j | 0 <= i < |a| && 0 <= j < |a[i]| :: r[i][j] == a[i][j] - b[i][j]
  {
    seq(|a|, i requires 0 <= i < |a| =>
      seq(|a[i]|, j requires 0 <= j < |a[i]| => a[i][j] - b[i][j]))
  }

  /** Element-wise product of two vectors of one length. */
  function Pointwise(a: Vector, b: Vector): (r: Vector)
    requires |a| == |b|
    ensures |r| == |a|
    ensures forall q | 0 <= q < |a| :: r[q] == a[q] * b[q]
  {
    seq(|a|, q requires 0 <= q < |a| => a[q] * b[q])
  }

  /** Element-wise product (the `*` of two tensors of one shape), row by row. */
  function Multiply(a: Matrix, b: Matrix): (r: Matrix)
    requires SameShape(a, b)
    ensures SameShape(r, a)
    ensures forall i | 0 <= i < |a| :: r[i] == Pointwise(a[i], b[i])
    ensures forall i, j | 0 <= i < |a| && 0 <= j < |a[i]| :: r[i][j] == a[i][j] * b[i][j]
  {
    seq(|a|, i requires 0 <= i < |a| => Pointwise(a[i], b[i]))
  }

  /** A scalar times a tensor. */
  function Scale(c: real, a: Matrix): (r: Matrix)
    ensures SameShape(r, a)
    ensures forall i, j | 0 <= i < |a| && 0 <= j < |a[i]| :: r[i][j] == c * a[i][j]
  {
    seq(|a|, i requires 0 <= i < |a| =>
      seq(|a[i]|, j requires 0 <= j < |a[i]| => c * a[i][j]))
  }

  /** A tensor plus a scalar, added to every entry. */
  function Offset(a: Matrix, d: real): (r: Matrix)
    ensures SameShape(r, a)
    ensures forall i, j | 0 <= i < |a| && 0 <= j < |a[i]| :: r[i][j] == a[i][j] + d
  {
    seq(|a|, i requires 0 <= i < |a| =>
      seq(|a[i]|, j requires 0 <= j < |a[i]| => a[i][j] + d))
  }

  /** tf.square. */
  function Square(a: Matrix): (r: Matrix)
    ensures SameShape(r, a)
    ensures forall i, j | 0 <= i < |a| && 0 <= j < |a[i]| :: r[i][j] == a[i][j] * a[i][j]
  {
    Multiply(a, a)
  }

  /** tf.reduce_mean(m, axis=0): the mean of every column. */
  function ReduceMeanAxis0(m: Matrix): (r: Vector)
    requires |m| > 0 && IsMatrix(m, |m|, Width(m))
    ensures |r| == Width(m)
    ensures forall j | 0 <= j < Width(m) :: r[j] == Mean(Column(m, j))
  {
    seq(Width(m), j requires 0 <= j < Width(m) => Mean(Column(m, j)))
  }

  /** The sum of all entries, row by row. */
  function SumAll(m: Matrix): real {
    if |m| == 0 then 0.0 else Sum(m[0]) + SumAll(m[1..])
  }

  /** tf.reduce_mean(m) with no axis: the mean of all entries. */
  function ReduceMean(m: Matrix): real
    requires |m| > 0 && Width(m) > 0 && IsMatrix(m, |m|, Width(m))
  {
    SumAll(m) / (|m| * Width(m)) as real
  }

  /** A sum of non-negative terms is non-negative, and it is zero exactly when every term is. */
  lemma {:induction false} SumNonNegative(v: Vector)
    requires forall i | 0 <= i < |v| :: v[i] >= 0.0
    ensures Sum(v) >= 0.0
    ensures Sum(v) == 0.0 <==> forall i | 0 <= i < |v| :: v[i] == 0.0
  {
    if |v| > 0 {
      SumNonNegative(v[1..]);
      if Sum(v) == 0.0 {
        forall i | 0 <= i < |v| ensures v[i] == 0.0 {
          if i > 0 { assert v[i] == v[1..][i - 1]; }
        }
      }
    }
  }

  lemma {:induction false} SumAllNonNegative(m: Matrix)
    requires forall i, j | 0 <= i < |m| && 0 <= j < |m[i]| :: m[i][j] >= 0.0
    ensures SumAll(m) >= 0.0
    ensures SumAll(m) == 0.0 <==> forall i, j | 0 <= i < |m| && 0 <= j < |m[i]| :: m[i][j] == 0.0
  {
    if |m| > 0 {
      SumNonNegative(m[0]);
      SumAllNonNegative(m[1..]);
      if SumAll(m) == 0.0 {
        forall i, j | 0 <= i < |m| && 0 <= j < |m[i]| ensures m[i][j] == 0.0 {
          if i > 0 { assert m[i] == m[1..][i - 1]; }
        }
      }
    }
  }

  lemma MeanOfSquaresNonNegative(v: Vector)
    requires |v| > 0
    ensures MeanOfSquares(v) >= 0.0
  {
    var sq := seq(|v|, i requires 0 <= i < |v| => v[i] * v[i]);
    SumNonNegative(sq);
  }

  /** The per-column mean of squares that closes every residual kernel. */
  lemma ReduceMeanAxis0OfSquares(m: Matrix)
    requires |m| > 0 && IsMatrix(m, |m|, Width(m))
    ensures IsMatrix(Square(m), |m|, Width(m)) && Width(Square(m)) == Width(m)
    ensures forall j | 0 <= j < Width(m) ::
      ReduceMeanAxis0(Square(m))[j] == MeanOfSquares(Column(m, j)) >= 0.0
  {
    var s := Square(m);
    forall j | 0 <= j < Width(m)
      ensures ReduceMeanAxis0(s)[j] == MeanOfSquares(Column(m, j)) >= 0.0
    {
      var c := Column(m, j);
      var sq := seq(|c|, i requires 0 <= i < |c| => c[i] * c[i]);
      forall i | 0 <= i < |c| ensures Column(s, j)[i] == sq[i] {
        assert s[i][j] == m[i][j] * m[i][j];
      }
      assert Column(s, j) == sq;
      MeanOfSquaresNonNegative(c);
    }
  }

  /** Weighting one factor of a dot product point by point with the constant k scales the product by k. */
  lemma {:induction false} DotConstantWeight(a: Vector, b: Vector, w: Vector, k: real)
    requires |a| == |b| == |w|
    requires forall q | 0 <= q < |w| :: w[q] == k
    ensures Dot(a, Pointwise(b, w)) == k * Dot(a, b)
  {
    if |a| > 0 {
      var p := Pointwise(b, w);
      forall q | 0 <= q < |a| - 1 ensures p[1..][q] == Pointwise(b[1..], w[1..])[q] {
      }
      assert p[1..] == Pointwise(b[1..], w[1..]);
      DotConstantWeight(a[1..], b[1..], w[1..], k);
      FactorOut(k, a[0], b[0], Dot(a[1..], b[1..]));
    }
  }

  /** x * (y * k) + k * z == k * (x * y + z), kept apart from the recursion above. */
  lemma FactorOut(k: real, x: real, y: real, z: real)
    ensures x * (y * k) + k * z == k * (x * y + z)
  {
  }

  /**
   * Weighting the field by a constant k at every point scales the contraction
   * by k: contracting g with u * w, where w is k everywhere, gives k times the
   * contraction of g with u.
   */
  lemma ContractConstantWeight(g: Tensor3, u: Matrix, w: Matrix, k: real, e: nat, t: nat)
    requires Contractible(g, u, e, t)
    requires IsMatrix(w, e, Width(u))
    requires forall j, q | 0 <= j < e && 0 <= q < Width(u) :: w[j][q] == k
    ensures Contractible(g, Multiply(u, w), e, t)
    ensures Contract(g, Multiply(u, w), e, t) == Scale(k, Contract(g, u, e, t))
  {
    var weighted := Multiply(u, w);
    assert Width(weighted) == Width(u) by {
      if e > 0 { assert |weighted[0]| == |u[0]|; }
    }
    var lhs := Contract(g, weighted, e, t);
    var rhs := Scale(k, Contract(g, u, e, t));
    forall i | 0 <= i < t ensures lhs[i] == rhs[i] {
      forall j | 0 <= j < e ensures lhs[i][j] == rhs[i][j] {
        ContractConstantWeightAt(g, u, w, k, e, t, i, j);
      }
    }
  }

  /** The same at test function i of element j. */
  lemma ContractConstantWeightAt(g: Tensor3, u: Matrix, w: Matrix, k: real, e: nat, t: nat, i: nat, j: nat)
    requires Contractible(g, u, e, t)
    requires IsMatrix(w, e, Width(u))
    requires Contractible(g, Multiply(u, w), e, t)
    requires i < t && j < e
    requires forall q | 0 <= q < |w[j]| :: w[j][q] == k
    ensures Contract(g, Multiply(u, w), e, t)[i][j] == Scale(k, Contract(g, u, e, t))[i][j]
  {
    var plain := Contract(g, u, e, t);
    DotConstantWeight(g[j][i], u[j], w[j], k);
    MultiplyBothSides(k, plain[i][j], Dot(g[j][i], u[j]));
  }

  /** Equal factors give equal products; kept apart so that no larger context has to find it. */
  lemma MultiplyBothSides(k: real, x: real, y: real)
    requires x == y
    ensures k * x == k * y
  {
  }

  /** A scalar distributes over the sum of two tensors of one shape. */
  lemma ScaleDistributes(k: real, a: Matrix, b: Matrix)
    requires SameShape(a, b)
    ensures Add(Scale(k, a), Scale(k, b)) == Scale(k, Add(a, b))
  {
    var lhs, rhs := Add(Scale(k, a), Scale(k, b)), Scale(k, Add(a, b));
    forall i | 0 <= i < |a| ensures lhs[i] == rhs[i] {
      forall j | 0 <= j < |a[i]| ensures lhs[i][j] == rhs[i][j] {
        assert k * a[i][j] + k * b[i][j] == k * (a[i][j] + b[i][j]);
      }
    }
  }

  /** Negating every entry leaves the mean of squares unchanged. */
  lemma MeanOfSquaresOfNegation(a: Vector, b: Vector)
    requires |a| == |b| > 0
    requires forall i | 0 <= i < |a| :: a[i] == -b[i]
    ensures MeanOfSquares(a) == MeanOfSquares(b)
  {
    var sa := seq(|a|, i requires 0 <= i < |a| => a[i] * a[i]);
    var sb := seq(|b|, i requires 0 <= i < |b| => b[i] * b[i]);
    forall i | 0 <= i < |a| ensures sa[i] == sb[i] {
      assert a[i] * a[i] == (-b[i]) * (-b[i]) == b[i] * b[i];
    }
    assert sa == sb;
  }

  /** The mean of squares of the zero vector is zero. */
  lemma MeanOfSquaresOfZero(v: Vector)
    requires |v| > 0
    requires forall i | 0 <= i < |v| :: v[i] == 0.0
    ensures MeanOfSquares(v) == 0.0
  {
    var sq := seq(|v|, i requires 0 <= i < |v| => v[i] * v[i]);
    assert forall i | 0 <= i < |v| :: sq[i] == 0.0;
    SumNonNegative(sq);
  }
}
