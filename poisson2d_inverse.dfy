/**
 * The weak-form residual of the 2-D Poisson inverse problem -div(eps grad u) = f
 * with an unknown constant diffusion coefficient eps (pde_loss_poisson_inverse).
 *
 * E is the number of elements (the leading axis of the test-function tensors),
 * T the number of test functions per element (the rows of the (T, E) forcing)
 * and Q the number of quadrature points per element.
 */
module Poisson2DInverse {
  import opened TensorOps

  /**
   * The shapes the kernel's tensor operations agree on: (E, T, Q) test-function
   * derivatives, (E, Q) solution derivatives and a (T, E) forcing, with at
   * least one test function for the mean over them.
   */
  predicate Shapes(testGradX: Tensor3, testGradY: Tensor3, predGradX: Matrix, predGradY: Matrix,
                   forcing: Matrix)
  {
    var e, t := |testGradX|, |forcing|;
    && t > 0
    && Contractible(testGradX, predGradX, e, t)
    && Contractible(testGradY, predGradY, e, t)
    && IsMatrix(forcing, t, e)
  }

  /**
   * The (T, E) residual matrix before squaring: eps times the contraction of the
   * solution gradient with the test-function gradient, minus the forcing.
   */
  function ResidualMatrix(testGradX: Tensor3, testGradY: Tensor3, predGradX: Matrix, predGradY: Matrix,
                          forcing: Matrix, eps: real): (r: Matrix)
    requires Shapes(testGradX, testGradY, predGradX, predGradY, forcing)
    ensures IsMatrix(r, |forcing|, |testGradX|)
    ensures forall t, e | 0 <= t < |forcing| && 0 <= e < |testGradX| ::
      r[t][e] == eps * (Dot(testGradX[e][t], predGradX[e]) + Dot(testGradY[e][t], predGradY[e]))
                 - forcing[t][e]
  {
    var e, t := |testGradX|, |forcing|;
    var diffusionX := Contract(testGradX, predGradX, e, t);
    var diffusionY := Contract(testGradY, predGradY, e, t);
    var diffusion := Scale(eps, Add(diffusionX, diffusionY));
    Sub(diffusion, forcing)
  }

  /**
   * pde_loss_poisson_inverse: per element, the mean over the test functions of
   * the squared residual. The test-function values, the solution values and the
   * bilinear parameters are accepted and not read; eps is inverseParams["eps"].
   */
  function PdeLossPoissonInverse(testShapeVal: Tensor3, testGradX: Tensor3, testGradY: Tensor3,
                                 pred: Matrix, predGradX: Matrix, predGradY: Matrix, forcing: Matrix,
                                 bilinearParams: map<string, real>, inverseParams: map<string, real>): (r: Vector)
    requires "eps" in inverseParams
    requires Shapes(testGradX, testGradY, predGradX, predGradY, forcing)
    ensures |r| == |testGradX|
    ensures forall e | 0 <= e < |r| :: r[e] >= 0.0
    ensures var residual := ResidualMatrix(testGradX, testGradY, predGradX, predGradY, forcing, inverseParams["eps"]);
      forall e | 0 <= e < |r| :: r[e] == MeanOfSquares(Column(residual, e))
  {
    var residual := ResidualMatrix(testGradX, testGradY, predGradX, predGradY, forcing, inverseParams["eps"]);
    ReduceMeanAxis0OfSquares(residual);
    ReduceMeanAxis0(Square(residual))
  }

  /** Multiplying eps by c multiplies the diffusion part of every residual entry by c. */
  lemma EpsScaling(testGradX: Tensor3, testGradY: Tensor3, predGradX: Matrix, predGradY: Matrix,
                   forcing: Matrix, eps: real, c: real)
    requires Shapes(testGradX, testGradY, predGradX, predGradY, forcing)
    ensures var scaled := ResidualMatrix(testGradX, testGradY, predGradX, predGradY, forcing, c * eps);
      var base := ResidualMatrix(testGradX, testGradY, predGradX, predGradY, forcing, eps);
      forall t, e | 0 <= t < |forcing| && 0 <= e < |testGradX| ::
        scaled[t][e] + forcing[t][e] == c * (base[t][e] + forcing[t][e])
  {
  }

  /** Adding d to every forcing entry lowers every residual entry by exactly d. */
  lemma ForcingShift(testGradX: Tensor3, testGradY: Tensor3, predGradX: Matrix, predGradY: Matrix,
                     forcing: Matrix, eps: real, d: real)
    requires Shapes(testGradX, testGradY, predGradX, predGradY, forcing)
    ensures Shapes(testGradX, testGradY, predGradX, predGradY, Offset(forcing, d))
    ensures var shifted := ResidualMatrix(testGradX, testGradY, predGradX, predGradY, Offset(forcing, d), eps);
      var base := ResidualMatrix(testGradX, testGradY, predGradX, predGradY, forcing, eps);
      forall t, e | 0 <= t < |forcing| && 0 <= e < |testGradX| :: shifted[t][e] == base[t][e] - d
  {
  }

  /** The arguments the kernel accepts but does not read have no influence on its result. */
  lemma IgnoresUnusedArguments(testShapeVal: Tensor3, testShapeVal': Tensor3, testGradX: Tensor3, testGradY: Tensor3,
                               pred: Matrix, pred': Matrix, predGradX: Matrix, predGradY: Matrix, forcing: Matrix,
                               bilinearParams: map<string, real>, bilinearParams': map<string, real>,
                               inverseParams: map<string, real>, inverseParams': map<string, real>)
    requires "eps" in inverseParams && "eps" in inverseParams' && inverseParams["eps"] == inverseParams'["eps"]
    requires Shapes(testGradX, testGradY, predGradX, predGradY, forcing)
    ensures PdeLossPoissonInverse(testShapeVal, testGradX, testGradY, pred, predGradX, predGradY, forcing,
                                  bilinearParams, inverseParams)
         == PdeLossPoissonInverse(testShapeVal', testGradX, testGradY, pred', predGradX, predGradY, forcing,
                                  bilinearParams', inverseParams')
  {
  }

  /** With eps = 0 the loss of element e is the mean over the test functions of the squared forcing. */
  lemma ZeroEps(testShapeVal: Tensor3, testGradX: Tensor3, testGradY: Tensor3,
                pred: Matrix, predGradX: Matrix, predGradY: Matrix, forcing: Matrix,
                bilinearParams: map<string, real>, inverseParams: map<string, real>)
    requires "eps" in inverseParams && inverseParams["eps"] == 0.0
    requires Shapes(testGradX, testGradY, predGradX, predGradY, forcing)
    ensures var r := PdeLossPoissonInverse(testShapeVal, testGradX, testGradY, pred, predGradX, predGradY,
                                           forcing, bilinearParams, inverseParams);
      forall e | 0 <= e < |r| :: r[e] == MeanOfSquares(Column(forcing, e))
  {
    var residual := ResidualMatrix(testGradX, testGradY, predGradX, predGradY, forcing, 0.0);
    forall e | 0 <= e < |testGradX|
      ensures MeanOfSquares(Column(residual, e)) == MeanOfSquares(Column(forcing, e))
    {
      MeanOfSquaresOfNegation(Column(residual, e), Column(forcing, e));
    }
  }

  /**
   * When the diffusion contraction matches the forcing at every test function of
   * every element (the weak form holds exactly), every element's loss is zero.
   */
  lemma ExactSolutionHasZeroLoss(testShapeVal: Tensor3, testGradX: Tensor3, testGradY: Tensor3,
                                 pred: Matrix, predGradX: Matrix, predGradY: Matrix, forcing: Matrix,
                                 bilinearParams: map<string, real>, inverseParams: map<string, real>)
    requires "eps" in inverseParams
    requires Shapes(testGradX, testGradY, predGradX, predGradY, forcing)
    requires forall t, e | 0 <= t < |forcing| && 0 <= e < |testGradX| ::
      inverseParams["eps"] * (Dot(testGradX[e][t], predGradX[e]) + Dot(testGradY[e][t], predGradY[e]))
      == forcing[t][e]
    ensures PdeLossPoissonInverse(testShapeVal, testGradX, testGradY, pred, predGradX, predGradY, forcing,
                                  bilinearParams, inverseParams)
         == seq(|testGradX|, e => 0.0)
  {
    var residual := ResidualMatrix(testGradX, testGradY, predGradX, predGradY, forcing, inverseParams["eps"]);
    forall e | 0 <= e < |testGradX| ensures MeanOfSquares(Column(residual, e)) == 0.0 {
      MeanOfSquaresOfZero(Column(residual, e));
    }
  }

  /**
   * One element, one test function, two quadrature points: eps = 2, the
   * contraction is 1 * 1 + 1 * 1 = 2, the residual 2 * 2 - 2 = 2 and its square 4.
   */
  lemma SingleElementExample()
    ensures PdeLossPoissonInverse([[[0.0, 0.0]]], [[[1.0, 1.0]]], [[[0.0, 0.0]]],
                                  [[0.0, 0.0]], [[1.0, 1.0]], [[0.0, 0.0]], [[2.0]],
                                  map[], map["eps" := 2.0]) == [4.0]
  {
    var gx: Tensor3, gy: Tensor3 := [[[1.0, 1.0]]], [[[0.0, 0.0]]];
    var ux: Matrix, uy: Matrix, f: Matrix := [[1.0, 1.0]], [[0.0, 0.0]], [[2.0]];
    assert Dot(gx[0][0], ux[0]) == 2.0;
    assert Dot(gy[0][0], uy[0]) == 0.0;
    var residual := ResidualMatrix(gx, gy, ux, uy, f, 2.0);
    assert residual[0][0] == 2.0;
    assert Column(residual, 0) == [2.0];
    assert seq(1, i requires 0 <= i < 1 => [2.0][i] * [2.0][i]) == [4.0];
    assert Sum([4.0]) == 4.0 + Sum([]);
    var r := PdeLossPoissonInverse([[[0.0, 0.0]]], gx, gy, [[0.0, 0.0]], ux, uy, f, map[], map["eps" := 2.0]);
    assert |r| == 1 && r[0] == 4.0;
  }
}
