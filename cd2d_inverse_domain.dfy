/**
 * The weak-form residual of the 2-D convection-diffusion inverse problem with a
 * spatially varying diffusion coefficient (pde_loss_cd2d_inverse_domain).
 *
 * The coefficient is the first entry of the inverse-parameter list, an (E, Q)
 * field given at every quadrature point; it multiplies the solution gradient
 * point by point BEFORE the contraction with the test-function gradients.
 * Convection b_x, b_y and reaction c come from the bilinear parameters.
 */
module Cd2dInverseDomain {
  import opened TensorOps
  import Poisson2DInverse

  /**
   * (E, T, Q) test-function tensors, (E, Q) solution fields, (T, E) forcing and
   * a first inverse parameter of the shape of the solution gradients.
   */
  predicate Shapes(testShapeVal: Tensor3, testGradX: Tensor3, testGradY: Tensor3,
                   pred: Matrix, predGradX: Matrix, predGradY: Matrix, forcing: Matrix,
                   inverseParams: seq<Matrix>)
  {
    var e, t := |testGradX|, |forcing|;
    && t > 0
    && |inverseParams| > 0
    && Contractible(testGradX, predGradX, e, t)
    && Contractible(testGradY, predGradY, e, t)
    && Contractible(testShapeVal, pred, e, t)
    && Contractible(testShapeVal, predGradX, e, t)
    && Contractible(testShapeVal, predGradY, e, t)
    && Width(predGradY) == Width(predGradX)
    && IsMatrix(inverseParams[0], e, Width(predGradX))
    && IsMatrix(forcing, t, e)
  }

  predicate HasCoefficients(bilinearParams: map<string, real>) {
    "b_x" in bilinearParams && "b_y" in bilinearParams && "c" in bilinearParams
  }

  /**
   * The diffusion term: the solution gradient times the coefficient at every
   * quadrature point, contracted with the test-function gradients.
   */
  function Diffusion(testGradX: Tensor3, testGradY: Tensor3, predGradX: Matrix, predGradY: Matrix,
                     coefficient: Matrix, t: nat): (r: Matrix)
    requires Contractible(testGradX, predGradX, |testGradX|, t)
    requires Contractible(testGradY, predGradY, |testGradX|, t)
    requires Width(predGradY) == Width(predGradX)
    requires IsMatrix(coefficient, |testGradX|, Width(predGradX))
    ensures IsMatrix(r, t, |testGradX|)
    ensures forall i, e | 0 <= i < t && 0 <= e < |testGradX| ::
      r[i][e] == Dot(testGradX[e][i], Pointwise(predGradX[e], coefficient[e]))
               + Dot(testGradY[e][i], Pointwise(predGradY[e], coefficient[e]))
  {
    var e := |testGradX|;
    var weightedX := Multiply(predGradX, coefficient);
    var weightedY := Multiply(predGradY, coefficient);
    Add(Contract(testGradX, weightedX, e, t), Contract(testGradY, weightedY, e, t))
  }

  /** The convection term: b_x and b_y times the contractions of the solution gradients with the test-function values. */
  function Convection(testShapeVal: Tensor3, predGradX: Matrix, predGradY: Matrix, bX: real, bY: real, t: nat): (r: Matrix)
    requires Contractible(testShapeVal, predGradX, |testShapeVal|, t)
    requires Contractible(testShapeVal, predGradY, |testShapeVal|, t)
    ensures IsMatrix(r, t, |testShapeVal|)
    ensures forall i, e | 0 <= i < t && 0 <= e < |testShapeVal| ::
      r[i][e] == bX * Dot(testShapeVal[e][i], predGradX[e]) + bY * Dot(testShapeVal[e][i], predGradY[e])
  {
    var e := |testShapeVal|;
    Add(Scale(bX, Contract(testShapeVal, predGradX, e, t)), Scale(bY, Contract(testShapeVal, predGradY, e, t)))
  }

  /** The reaction term: c times the contraction of the solution with the test-function values. */
  function Reaction(testShapeVal: Tensor3, pred: Matrix, c: real, t: nat): (r: Matrix)
    requires Contractible(testShapeVal, pred, |testShapeVal|, t)
    ensures IsMatrix(r, t, |testShapeVal|)
    ensures forall i, e | 0 <= i < t && 0 <= e < |testShapeVal| ::
      r[i][e] == c * Dot(testShapeVal[e][i], pred[e])
  {
    Scale(c, Contract(testShapeVal, pred, |testShapeVal|, t))
  }

  /** The (T, E) residual matrix before squaring: diffusion + convection + reaction - forcing. */
  function ResidualMatrix(testShapeVal: Tensor3, testGradX: Tensor3, testGradY: Tensor3,
                          pred: Matrix, predGradX: Matrix, predGradY: Matrix, forcing: Matrix,
                          coefficient: Matrix, bX: real, bY: real, c: real): (r: Matrix)
    requires Shapes(testShapeVal, testGradX, testGradY, pred, predGradX, predGradY, forcing, [coefficient])
    ensures IsMatrix(r, |forcing|, |testGradX|)
    ensures var t := |forcing|;
      var diffusion := Diffusion(testGradX, testGradY, predGradX, predGradY, coefficient, t);
      var conv := Convection(testShapeVal, predGradX, predGradY, bX, bY, t);
      var reaction := Reaction(testShapeVal, pred, c, t);
      forall i, e | 0 <= i < t && 0 <= e < |testGradX| ::
        r[i][e] == (diffusion[i][e] + conv[i][e] + reaction[i][e]) - forcing[i][e]
  {
    var t, e := |forcing|, |testGradX|;
    var diffusion := Diffusion(testGradX, testGradY, predGradX, predGradY, coefficient, t);
    var conv := Convection(testShapeVal, predGradX, predGradY, bX, bY, t);
    var reaction := Reaction(testShapeVal, pred, c, t);
    assert IsMatrix(diffusion, t, e) && IsMatrix(conv, t, e) && IsMatrix(reaction, t, e);
    Sub(Add(Add(diffusion, conv), reaction), forcing)
  }

  /** pde_loss_cd2d_inverse_domain: per element, the mean over the test functions of the squared residual. */
  function PdeLossCd2dInverseDomain(testShapeVal: Tensor3, testGradX: Tensor3, testGradY: Tensor3,
                                    pred: Matrix, predGradX: Matrix, predGradY: Matrix, forcing: Matrix,
                                    bilinearParams: map<string, real>, inverseParams: seq<Matrix>): (r: Vector)
    requires HasCoefficients(bilinearParams)
    requires Shapes(testShapeVal, testGradX, testGradY, pred, predGradX, predGradY, forcing, inverseParams)
    ensures |r| == |testGradX|
    ensures forall e | 0 <= e < |r| :: r[e] >= 0.0
    ensures var residual := ResidualMatrix(testShapeVal, testGradX, testGradY, pred, predGradX, predGradY, forcing,
                                           inverseParams[0], bilinearParams["b_x"], bilinearParams["b_y"],
                                           bilinearParams["c"]);
      forall e | 0 <= e < |r| :: r[e] == MeanOfSquares(Column(residual, e))
  {
    var residual := ResidualMatrix(testShapeVal, testGradX, testGradY, pred, predGradX, predGradY, forcing,
                                   inverseParams[0], bilinearParams["b_x"], bilinearParams["b_y"],
                                   bilinearParams["c"]);
    ReduceMeanAxis0OfSquares(residual);
    ReduceMeanAxis0(Square(residual))
  }

  /** Every entry of the coefficient field equals kappa. */
  predicate IsConstant(coefficient: Matrix, kappa: real) {
    forall e, q | 0 <= e < |coefficient| && 0 <= q < |coefficient[e]| :: coefficient[e][q] == kappa
  }

  /**
   * A constant coefficient can be taken out of the contraction: when the
   * coefficient field is kappa at every quadrature point, the diffusion term is
   * kappa times the sum of the unweighted x- and y-contractions.
   */
  lemma ConstantCoefficientDiffusion(testGradX: Tensor3, testGradY: Tensor3, predGradX: Matrix, predGradY: Matrix,
                                     coefficient: Matrix, t: nat, kappa: real)
    requires Contractible(testGradX, predGradX, |testGradX|, t)
    requires Contractible(testGradY, predGradY, |testGradX|, t)
    requires Width(predGradY) == Width(predGradX)
    requires IsMatrix(coefficient, |testGradX|, Width(predGradX))
    requires IsConstant(coefficient, kappa)
    ensures Diffusion(testGradX, testGradY, predGradX, predGradY, coefficient, t)
         == Scale(kappa, Add(Contract(testGradX, predGradX, |testGradX|, t),
                             Contract(testGradY, predGradY, |testGradX|, t)))
  {
    var e := |testGradX|;
    ContractConstantWeight(testGradX, predGradX, coefficient, kappa, e, t);
    ContractConstantWeight(testGradY, predGradY, coefficient, kappa, e, t);
    ScaleDistributes(kappa, Contract(testGradX, predGradX, e, t), Contract(testGradY, predGradY, e, t));
  }

  /** Without convection and reaction the residual is the diffusion term minus the forcing. */
  lemma WithoutConvectionAndReaction(testShapeVal: Tensor3, testGradX: Tensor3, testGradY: Tensor3,
                                     pred: Matrix, predGradX: Matrix, predGradY: Matrix, forcing: Matrix,
                                     coefficient: Matrix)
    requires Shapes(testShapeVal, testGradX, testGradY, pred, predGradX, predGradY, forcing, [coefficient])
    ensures ResidualMatrix(testShapeVal, testGradX, testGradY, pred, predGradX, predGradY, forcing,
                           coefficient, 0.0, 0.0, 0.0)
         == Sub(Diffusion(testGradX, testGradY, predGradX, predGradY, coefficient, |forcing|), forcing)
  {
    var r := ResidualMatrix(testShapeVal, testGradX, testGradY, pred, predGradX, predGradY, forcing,
                            coefficient, 0.0, 0.0, 0.0);
    var s := Sub(Diffusion(testGradX, testGradY, predGradX, predGradY, coefficient, |forcing|), forcing);
    forall i | 0 <= i < |forcing| ensures r[i] == s[i] {
      forall j | 0 <= j < |testGradX| ensures r[i][j] == s[i][j] {
      }
    }
  }

  /**
   * With no convection, no reaction and a constant coefficient kappa, the
   * convection-diffusion loss is the Poisson inverse loss with eps = kappa.
   */
  lemma ReducesToPoissonInverse(testShapeVal: Tensor3, testGradX: Tensor3, testGradY: Tensor3,
                                pred: Matrix, predGradX: Matrix, predGradY: Matrix, forcing: Matrix,
                                bilinearParams: map<string, real>, inverseParams: seq<Matrix>, kappa: real)
    requires HasCoefficients(bilinearParams)
    requires bilinearParams["b_x"] == 0.0 && bilinearParams["b_y"] == 0.0 && bilinearParams["c"] == 0.0
    requires Shapes(testShapeVal, testGradX, testGradY, pred, predGradX, predGradY, forcing, inverseParams)
    requires IsConstant(inverseParams[0], kappa)
    ensures Poisson2DInverse.Shapes(testGradX, testGradY, predGradX, predGradY, forcing)
    ensures PdeLossCd2dInverseDomain(testShapeVal, testGradX, testGradY, pred, predGradX, predGradY, forcing,
                                     bilinearParams, inverseParams)
         == Poisson2DInverse.PdeLossPoissonInverse(testShapeVal, testGradX, testGradY, pred, predGradX, predGradY,
                                                   forcing, bilinearParams, map["eps" := kappa])
  {
    var t := |forcing|;
    ConstantCoefficientDiffusion(testGradX, testGradY, predGradX, predGradY, inverseParams[0], t, kappa);
    WithoutConvectionAndReaction(testShapeVal, testGradX, testGradY, pred, predGradX, predGradY, forcing,
                                 inverseParams[0]);
    assert ResidualMatrix(testShapeVal, testGradX, testGradY, pred, predGradX, predGradY, forcing,
                          inverseParams[0], 0.0, 0.0, 0.0)
        == Poisson2DInverse.ResidualMatrix(testGradX, testGradY, predGradX, predGradY, forcing, kappa);
  }

  /** Entries of the inverse-parameter list after the first have no influence on the result. */
  lemma OnlyFirstInverseParameterMatters(testShapeVal: Tensor3, testGradX: Tensor3, testGradY: Tensor3,
                                         pred: Matrix, predGradX: Matrix, predGradY: Matrix, forcing: Matrix,
                                         bilinearParams: map<string, real>, inverseParams: seq<Matrix>)
    requires HasCoefficients(bilinearParams)
    requires Shapes(testShapeVal, testGradX, testGradY, pred, predGradX, predGradY, forcing, inverseParams)
    ensures Shapes(testShapeVal, testGradX, testGradY, pred, predGradX, predGradY, forcing, inverseParams[..1])
    ensures PdeLossCd2dInverseDomain(testShapeVal, testGradX, testGradY, pred, predGradX, predGradY, forcing,
                                     bilinearParams, inverseParams)
         == PdeLossCd2dInverseDomain(testShapeVal, testGradX, testGradY, pred, predGradX, predGradY, forcing,
                                     bilinearParams, inverseParams[..1])
  {
  }

  /** Adding d to every forcing entry lowers every residual entry by exactly d. */
  lemma ForcingShift(testShapeVal: Tensor3, testGradX: Tensor3, testGradY: Tensor3,
                     pred: Matrix, predGradX: Matrix, predGradY: Matrix, forcing: Matrix,
                     coefficient: Matrix, bX: real, bY: real, c: real, d: real)
    requires Shapes(testShapeVal, testGradX, testGradY, pred, predGradX, predGradY, forcing, [coefficient])
    ensures Shapes(testShapeVal, testGradX, testGradY, pred, predGradX, predGradY, Offset(forcing, d), [coefficient])
    ensures var shifted := ResidualMatrix(testShapeVal, testGradX, testGradY, pred, predGradX, predGradY,
                                          Offset(forcing, d), coefficient, bX, bY, c);
      var base := ResidualMatrix(testShapeVal, testGradX, testGradY, pred, predGradX, predGradY, forcing,
                                 coefficient, bX, bY, c);
      forall t, e | 0 <= t < |forcing| && 0 <= e < |testGradX| :: shifted[t][e] == base[t][e] - d
  {
  }

  /**
   * When diffusion, convection and reaction balance the forcing at every test
   * function of every element, every element's loss is zero.
   */
  lemma ExactSolutionHasZeroLoss(testShapeVal: Tensor3, testGradX: Tensor3, testGradY: Tensor3,
                                 pred: Matrix, predGradX: Matrix, predGradY: Matrix, forcing: Matrix,
                                 bilinearParams: map<string, real>, inverseParams: seq<Matrix>)
    requires HasCoefficients(bilinearParams)
    requires Shapes(testShapeVal, testGradX, testGradY, pred, predGradX, predGradY, forcing, inverseParams)
    requires var diffusion := Diffusion(testGradX, testGradY, predGradX, predGradY, inverseParams[0], |forcing|);
      var bX, bY, c := bilinearParams["b_x"], bilinearParams["b_y"], bilinearParams["c"];
      forall t, e | 0 <= t < |forcing| && 0 <= e < |testGradX| ::
        diffusion[t][e]
        + (bX * Dot(testShapeVal[e][t], predGradX[e]) + bY * Dot(testShapeVal[e][t], predGradY[e]))
        + c * Dot(testShapeVal[e][t], pred[e])
        == forcing[t][e]
    ensures PdeLossCd2dInverseDomain(testShapeVal, testGradX, testGradY, pred, predGradX, predGradY, forcing,
                                     bilinearParams, inverseParams)
         == seq(|testGradX|, e => 0.0)
  {
    var residual := ResidualMatrix(testShapeVal, testGradX, testGradY, pred, predGradX, predGradY, forcing,
                                   inverseParams[0], bilinearParams["b_x"], bilinearParams["b_y"],
                                   bilinearParams["c"]);
    forall e | 0 <= e < |testGradX| ensures MeanOfSquares(Column(residual, e)) == 0.0 {
      MeanOfSquaresOfZero(Column(residual, e));
    }
  }
}
