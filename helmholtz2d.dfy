/**
 * The weak-form residual of the 2-D Helmholtz equation (pde_loss_helmholtz):
 * minus eps times the diffusion contraction, plus k squared times the value
 * contraction, minus the forcing, squared and averaged over the test functions
 * of each element. eps and k are read from the bilinear parameters.
 */
module Helmholtz2D {
  import opened TensorOps

  /** (E, T, Q) test-function values and derivatives, (E, Q) solution values and derivatives, (T, E) forcing. */
  predicate Shapes(testShapeVal: Tensor3, testGradX: Tensor3, testGradY: Tensor3,
                   pred: Matrix, predGradX: Matrix, predGradY: Matrix, forcing: Matrix)
  {
    var e, t := |testGradX|, |forcing|;
    && t > 0
    && Contractible(testGradX, predGradX, e, t)
    && Contractible(testGradY, predGradY, e, t)
    && Contractible(testShapeVal, pred, e, t)
    && IsMatrix(forcing, t, e)
  }

  predicate HasCoefficients(bilinearParams: map<string, real>) {
    "eps" in bilinearParams && "k" in bilinearParams
  }

  /** The diffusion term: eps times the x- plus y-contraction of the gradients. */
  function Diffusion(testGradX: Tensor3, testGradY: Tensor3, predGradX: Matrix, predGradY: Matrix,
                     eps: real, e: nat, t: nat): (r: Matrix)
    requires Contractible(testGradX, predGradX, e, t)
    requires Contractible(testGradY, predGradY, e, t)
    ensures IsMatrix(r, t, e)
    ensures forall i, j | 0 <= i < t && 0 <= j < e ::
      r[i][j] == eps * (Dot(testGradX[j][i], predGradX[j]) + Dot(testGradY[j][i], predGradY[j]))
  {
    Scale(eps, Add(Contract(testGradX, predGradX, e, t), Contract(testGradY, predGradY, e, t)))
  }

  /** The wave term: k squared times the contraction of the solution with the test-function values. */
  function WaveTerm(testShapeVal: Tensor3, pred: Matrix, k: real, e: nat, t: nat): (r: Matrix)
    requires Contractible(testShapeVal, pred, e, t)
    ensures IsMatrix(r, t, e)
    ensures forall i, j | 0 <= i < t && 0 <= j < e :: r[i][j] == (k * k) * Dot(testShapeVal[j][i], pred[j])
  {
    Scale(k * k, Contract(testShapeVal, pred, e, t))
  }

  /** The (T, E) residual matrix before squaring: minus the diffusion, plus the wave term, minus the forcing. */
  function ResidualMatrix(testShapeVal: Tensor3, testGradX: Tensor3, testGradY: Tensor3,
                          pred: Matrix, predGradX: Matrix, predGradY: Matrix, forcing: Matrix,
                          eps: real, k: real): (r: Matrix)
    requires Shapes(testShapeVal, testGradX, testGradY, pred, predGradX, predGradY, forcing)
    ensures IsMatrix(r, |forcing|, |testGradX|)
    ensures var e, t := |testGradX|, |forcing|;
      var diffusion := Diffusion(testGradX, testGradY, predGradX, predGradY, eps, e, t);
      var wave := WaveTerm(testShapeVal, pred, k, e, t);
      forall i, j | 0 <= i < t && 0 <= j < e :: r[i][j] == -1.0 * diffusion[i][j] + wave[i][j] - forcing[i][j]
  {
    var e, t := |testGradX|, |forcing|;
    var diffusion := Diffusion(testGradX, testGradY, predGradX, predGradY, eps, e, t);
    var wave := WaveTerm(testShapeVal, pred, k, e, t);
    Sub(Add(Scale(-1.0, diffusion), wave), forcing)
  }

  /** pde_loss_helmholtz: per element, the mean over the test functions of the squared residual. */
  function PdeLossHelmholtz(testShapeVal: Tensor3, testGradX: Tensor3, testGradY: Tensor3,
                            pred: Matrix, predGradX: Matrix, predGradY: Matrix, forcing: Matrix,
                            bilinearParams: map<string, real>): (r: Vector)
    requires HasCoefficients(bilinearParams)
    requires Shapes(testShapeVal, testGradX, testGradY, pred, predGradX, predGradY, forcing)
    ensures |r| == |testGradX|
    ensures forall e | 0 <= e < |r| :: r[e] >= 0.0
    ensures var residual := ResidualMatrix(testShapeVal, testGradX, testGradY, pred, predGradX, predGradY,
                                           forcing, bilinearParams["eps"], bilinearParams["k"]);
      forall e | 0 <= e < |r| :: r[e] == MeanOfSquares(Column(residual, e))
  {
    var residual := ResidualMatrix(testShapeVal, testGradX, testGradY, pred, predGradX, predGradY,
                                   forcing, bilinearParams["eps"], bilinearParams["k"]);
    ReduceMeanAxis0OfSquares(residual);
    ReduceMeanAxis0(Square(residual))
  }

  /** The wave number enters only through its square: k and -k give the same loss. */
  lemma WaveNumberSign(testShapeVal: Tensor3, testGradX: Tensor3, testGradY: Tensor3,
                       pred: Matrix, predGradX: Matrix, predGradY: Matrix, forcing: Matrix,
                       bilinearParams: map<string, real>)
    requires HasCoefficients(bilinearParams)
    requires Shapes(testShapeVal, testGradX, testGradY, pred, predGradX, predGradY, forcing)
    ensures PdeLossHelmholtz(testShapeVal, testGradX, testGradY, pred, predGradX, predGradY, forcing,
                             bilinearParams["k" := -bilinearParams["k"]])
         == PdeLossHelmholtz(testShapeVal, testGradX, testGradY, pred, predGradX, predGradY, forcing,
                             bilinearParams)
  {
    var k := bilinearParams["k"];
    var flipped := bilinearParams["k" := -k];
    var eps := bilinearParams["eps"];
    assert flipped["eps"] == eps && flipped["k"] == -k;
    SameSquareSameResidual(testShapeVal, testGradX, testGradY, pred, predGradX, predGradY, forcing, eps, -k, k);
    var residual := ResidualMatrix(testShapeVal, testGradX, testGradY, pred, predGradX, predGradY, forcing, eps, k);
    assert ResidualMatrix(testShapeVal, testGradX, testGradY, pred, predGradX, predGradY, forcing,
                          flipped["eps"], flipped["k"]) == residual;
  }

  /** Only the square of the wave number enters the residual. */
  lemma SameSquareSameResidual(testShapeVal: Tensor3, testGradX: Tensor3, testGradY: Tensor3,
                               pred: Matrix, predGradX: Matrix, predGradY: Matrix, forcing: Matrix,
                               eps: real, k: real, k': real)
    requires Shapes(testShapeVal, testGradX, testGradY, pred, predGradX, predGradY, forcing)
    requires k * k == k' * k'
    ensures ResidualMatrix(testShapeVal, testGradX, testGradY, pred, predGradX, predGradY, forcing, eps, k)
         == ResidualMatrix(testShapeVal, testGradX, testGradY, pred, predGradX, predGradY, forcing, eps, k')
  {
    var e, t := |testGradX|, |forcing|;
    assert WaveTerm(testShapeVal, pred, k, e, t) == WaveTerm(testShapeVal, pred, k', e, t);
  }

  /** With k = 0 the wave term vanishes and the residual is minus the diffusion term minus the forcing. */
  lemma ZeroWaveNumber(testShapeVal: Tensor3, testGradX: Tensor3, testGradY: Tensor3,
                       pred: Matrix, predGradX: Matrix, predGradY: Matrix, forcing: Matrix, eps: real)
    requires Shapes(testShapeVal, testGradX, testGradY, pred, predGradX, predGradY, forcing)
    ensures var e, t := |testGradX|, |forcing|;
      var r := ResidualMatrix(testShapeVal, testGradX, testGradY, pred, predGradX, predGradY, forcing, eps, 0.0);
      var diffusion := Diffusion(testGradX, testGradY, predGradX, predGradY, eps, e, t);
      forall i, j | 0 <= i < t && 0 <= j < e :: r[i][j] == -diffusion[i][j] - forcing[i][j]
  {
  }

  /** Adding d to every forcing entry lowers every residual entry by exactly d. */
  lemma ForcingShift(testShapeVal: Tensor3, testGradX: Tensor3, testGradY: Tensor3,
                     pred: Matrix, predGradX: Matrix, predGradY: Matrix, forcing: Matrix,
                     eps: real, k: real, d: real)
    requires Shapes(testShapeVal, testGradX, testGradY, pred, predGradX, predGradY, forcing)
    ensures Shapes(testShapeVal, testGradX, testGradY, pred, predGradX, predGradY, Offset(forcing, d))
    ensures var shifted := ResidualMatrix(testShapeVal, testGradX, testGradY, pred, predGradX, predGradY,
                                          Offset(forcing, d), eps, k);
      var base := ResidualMatrix(testShapeVal, testGradX, testGradY, pred, predGradX, predGradY, forcing, eps, k);
      forall t, e | 0 <= t < |forcing| && 0 <= e < |testGradX| :: shifted[t][e] == base[t][e] - d
  {
  }

  /**
   * When the weak form holds exactly at every test function of every element,
   * every element's loss is zero.
   */
  lemma ExactSolutionHasZeroLoss(testShapeVal: Tensor3, testGradX: Tensor3, testGradY: Tensor3,
                                 pred: Matrix, predGradX: Matrix, predGradY: Matrix, forcing: Matrix,
                                 bilinearParams: map<string, real>)
    requires HasCoefficients(bilinearParams)
    requires Shapes(testShapeVal, testGradX, testGradY, pred, predGradX, predGradY, forcing)
    requires var eps, k := bilinearParams["eps"], bilinearParams["k"];
      forall t, e | 0 <= t < |forcing| && 0 <= e < |testGradX| ::
        -1.0 * (eps * (Dot(testGradX[e][t], predGradX[e]) + Dot(testGradY[e][t], predGradY[e])))
        + (k * k) * Dot(testShapeVal[e][t], pred[e]) == forcing[t][e]
    ensures PdeLossHelmholtz(testShapeVal, testGradX, testGradY, pred, predGradX, predGradY, forcing,
                             bilinearParams)
         == seq(|testGradX|, e => 0.0)
  {
    var residual := ResidualMatrix(testShapeVal, testGradX, testGradY, pred, predGradX, predGradY,
                                   forcing, bilinearParams["eps"], bilinearParams["k"]);
    forall e | 0 <= e < |testGradX| ensures MeanOfSquares(Column(residual, e)) == 0.0 {
      MeanOfSquaresOfZero(Column(residual, e));
    }
  }

  /**
   * One element, one test function, one quadrature point, zero gradients:
   * eps = 1, k = 2, value 1, test function 1 and no forcing give the residual
   * 4 * 1 * 1 = 4 and the loss 16.
   */
  lemma SingleElementExample()
    ensures PdeLossHelmholtz([[[1.0]]], [[[0.0]]], [[[0.0]]], [[1.0]], [[0.0]], [[0.0]], [[0.0]],
                             map["eps" := 1.0, "k" := 2.0]) == [16.0]
  {
    var v: Tensor3, gx: Tensor3, gy: Tensor3 := [[[1.0]]], [[[0.0]]], [[[0.0]]];
    var u: Matrix, ux: Matrix, uy: Matrix, f: Matrix := [[1.0]], [[0.0]], [[0.0]], [[0.0]];
    assert Dot(gx[0][0], ux[0]) == 0.0;
    assert Dot(gy[0][0], uy[0]) == 0.0;
    assert Dot(v[0][0], u[0]) == 1.0;
    var residual := ResidualMatrix(v, gx, gy, u, ux, uy, f, 1.0, 2.0);
    assert residual[0][0] == 4.0;
    assert Column(residual, 0) == [4.0];
    assert seq(1, i requires 0 <= i < 1 => [4.0][i] * [4.0][i]) == [16.0];
    assert Sum([16.0]) == 16.0 + Sum([]);
    var r := PdeLossHelmholtz(v, gx, gy, u, ux, uy, f, map["eps" := 1.0, "k" := 2.0]);
    assert |r| == 1 && r[0] == 16.0;
  }
}
