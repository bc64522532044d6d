/**
 * The transient three-field PINN model (Ez, Hx, Hy) of the electromagnetics
 * example: the constructor's dtype check and unpacking of the input tensors,
 * and the loss arithmetic of one training step. The forward pass, automatic
 * differentiation and the optimizer are outside the model: the network is a
 * function supplied by the caller, and the three gradient matrices are given.
 */
module ModelVectorTransient {
  import opened TensorOps

  datatype Option<T> = None | Some(value: T)

  datatype Result<T, E> = Success(value: T) | Failure(error: E)

  /** The tensor_dtype argument: a TensorFlow dtype, or any other value. */
  datatype DtypeArgument = TfDtype(name: string) | OtherValue

  /** Construction fails with TypeError on a bad dtype, or IndexError on a short input list. */
  datatype InitError = TypeError(message: string) | IndexError

  const InvalidDtypeMessage: string := "The given dtype is not a valid tensorflow dtype"

  /** The keyword arguments the training step passes to the PDE loss function. */
  datatype LossArguments = LossArguments(
    predEz: Matrix, predHx: Matrix, predHy: Matrix,
    gradXEz: Matrix, gradXHx: Matrix, gradXHy: Matrix,
    gradYEz: Matrix, gradYHx: Matrix, gradYHy: Matrix,
    gradTEz: Matrix, gradTHx: Matrix, gradTHy: Matrix,
    forcing1: Matrix, forcing2: Matrix, forcing3: Matrix,
    bilinearParams: Option<map<string, real>>)

  /** The dictionary a training step returns. */
  datatype LossRecord = LossRecord(lossPde: real, lossDirichlet: real, lossInitial: real, loss: real)

  /** A rectangular matrix with at least the three output (or input) channels. */
  predicate HasThreeColumns(m: Matrix) {
    IsMatrix(m, |m|, Width(m)) && Width(m) >= 3
  }

  /** m[:, j:j+1]: column j as an (N, 1) matrix. */
  function ColumnSlice(m: Matrix, j: nat): (r: Matrix)
    requires forall i | 0 <= i < |m| :: j < |m[i]|
    ensures IsMatrix(r, |m|, 1)
    ensures forall i | 0 <= i < |m| :: r[i][0] == m[i][j]
  {
    seq(|m|, i requires 0 <= i < |m| => [m[i][j]])
  }

  /** A prediction of shape (N, 1), N > 0, against target values of the same shape. */
  predicate Comparable(predicted: Matrix, actual: Matrix) {
    |predicted| > 0 && IsMatrix(predicted, |predicted|, 1) && IsMatrix(actual, |predicted|, 1)
  }

  /** tf.reduce_mean(tf.square(predicted - actual)). */
  function MeanSquaredError(predicted: Matrix, actual: Matrix): (r: real)
    requires Comparable(predicted, actual)
    ensures r >= 0.0
    ensures (forall i | 0 <= i < |predicted| :: predicted[i][0] == actual[i][0]) ==> r == 0.0
  {
    var squares := Square(Sub(predicted, actual));
    SumAllNonNegative(squares);
    ReduceMean(squares)
  }

  /** The squared difference does not depend on which side is the prediction. */
  lemma MeanSquaredErrorSymmetric(predicted: Matrix, actual: Matrix)
    requires Comparable(predicted, actual)
    ensures Comparable(actual, predicted)
    ensures MeanSquaredError(predicted, actual) == MeanSquaredError(actual, predicted)
  {
    var d, d' := Sub(predicted, actual), Sub(actual, predicted);
    forall i | 0 <= i < |predicted| ensures Square(d)[i] == Square(d')[i] {
      assert d[i][0] == -d'[i][0];
      assert Square(d)[i][0] == Square(d')[i][0];
    }
    assert Square(d) == Square(d');
  }

  /**
   * The slicing of train_step: the Ez, Hx and Hy predictions are output columns
   * 0, 1 and 2; each field's x, y and t partials are gradient columns 0, 1 and 2;
   * the one force matrix is passed as all three forcing functions.
   */
  function LossCallArguments(predicted: Matrix, gradEz: Matrix, gradHx: Matrix, gradHy: Matrix,
                             forceMatrix: Matrix, bilinearParams: Option<map<string, real>>): (r: LossArguments)
    requires HasThreeColumns(predicted)
    requires HasThreeColumns(gradEz) && HasThreeColumns(gradHx) && HasThreeColumns(gradHy)
    ensures IsMatrix(r.predEz, |predicted|, 1) && IsMatrix(r.predHx, |predicted|, 1) && IsMatrix(r.predHy, |predicted|, 1)
    ensures forall i | 0 <= i < |predicted| ::
      r.predEz[i][0] == predicted[i][0] && r.predHx[i][0] == predicted[i][1] && r.predHy[i][0] == predicted[i][2]
    ensures IsMatrix(r.gradXEz, |gradEz|, 1) && IsMatrix(r.gradYEz, |gradEz|, 1) && IsMatrix(r.gradTEz, |gradEz|, 1)
    ensures IsMatrix(r.gradXHx, |gradHx|, 1) && IsMatrix(r.gradYHx, |gradHx|, 1) && IsMatrix(r.gradTHx, |gradHx|, 1)
    ensures IsMatrix(r.gradXHy, |gradHy|, 1) && IsMatrix(r.gradYHy, |gradHy|, 1) && IsMatrix(r.gradTHy, |gradHy|, 1)
    ensures forall i | 0 <= i < |gradEz| ::
      r.gradXEz[i][0] == gradEz[i][0] && r.gradYEz[i][0] == gradEz[i][1] && r.gradTEz[i][0] == gradEz[i][2]
    ensures forall i | 0 <= i < |gradHx| ::
      r.gradXHx[i][0] == gradHx[i][0] && r.gradYHx[i][0] == gradHx[i][1] && r.gradTHx[i][0] == gradHx[i][2]
    ensures forall i | 0 <= i < |gradHy| ::
      r.gradXHy[i][0] == gradHy[i][0] && r.gradYHy[i][0] == gradHy[i][1] && r.gradTHy[i][0] == gradHy[i][2]
    ensures r.forcing1 == r.forcing2 == r.forcing3 == forceMatrix
    ensures r.bilinearParams == bilinearParams
  {
    LossArguments(
      ColumnSlice(predicted, 0), ColumnSlice(predicted, 1), ColumnSlice(predicted, 2),
      ColumnSlice(gradEz, 0), ColumnSlice(gradHx, 0), ColumnSlice(gradHy, 0),
      ColumnSlice(gradEz, 1), ColumnSlice(gradHx, 1), ColumnSlice(gradHy, 1),
      ColumnSlice(gradEz, 2), ColumnSlice(gradHx, 2), ColumnSlice(gradHy, 2),
      forceMatrix, forceMatrix, forceMatrix,
      bilinearParams)
  }

  /** Each field sees only its own output column: changing the other two columns leaves it unchanged. */
  lemma ChannelsAreSeparate(predicted: Matrix, predicted': Matrix, gradEz: Matrix, gradHx: Matrix, gradHy: Matrix,
                            forceMatrix: Matrix, bilinearParams: Option<map<string, real>>, j: nat)
    requires HasThreeColumns(predicted) && HasThreeColumns(predicted')
    requires HasThreeColumns(gradEz) && HasThreeColumns(gradHx) && HasThreeColumns(gradHy)
    requires j < 3 && |predicted| == |predicted'|
    requires forall i | 0 <= i < |predicted| :: predicted[i][j] == predicted'[i][j]
    ensures var a := LossCallArguments(predicted, gradEz, gradHx, gradHy, forceMatrix, bilinearParams);
      var a' := LossCallArguments(predicted', gradEz, gradHx, gradHy, forceMatrix, bilinearParams);
      (j == 0 ==> a.predEz == a'.predEz) && (j == 1 ==> a.predHx == a'.predHx) && (j == 2 ==> a.predHy == a'.predHy)
  {
    var a := LossCallArguments(predicted, gradEz, gradHx, gradHy, forceMatrix, bilinearParams);
    var a' := LossCallArguments(predicted', gradEz, gradHx, gradHy, forceMatrix, bilinearParams);
    if j == 0 {
      assert forall i | 0 <= i < |predicted| :: a.predEz[i] == a'.predEz[i];
    } else if j == 1 {
      assert forall i | 0 <= i < |predicted| :: a.predHx[i] == a'.predHx[i];
    } else {
      assert forall i | 0 <= i < |predicted| :: a.predHy[i] == a'.predHy[i];
    }
  }

  /** The weighted total of train_step; initial is the sum of the three initial losses. */
  function TotalLoss(pde: real, boundary: real, initial: real, betaBoundary: real, betaInitial: real): (r: real)
    ensures boundary >= 0.0 && initial >= 0.0 && betaBoundary >= 0.0 && betaInitial >= 0.0 ==> r >= pde
  {
    WeightedNonNegative(betaBoundary, boundary);
    WeightedNonNegative(betaInitial, initial);
    pde + betaBoundary * boundary + betaInitial * initial
  }

  /** The returned dictionary: the PDE residual, the boundary loss, the summed initial losses and the total. */
  function StepRecord(pde: real, boundary: real, initialEz: real, initialHx: real, initialHy: real,
                      betaBoundary: real, betaInitial: real): (r: LossRecord)
    ensures r.lossPde == pde && r.lossDirichlet == boundary && r.lossInitial == initialEz + initialHx + initialHy
    ensures r.loss == TotalLoss(r.lossPde, r.lossDirichlet, r.lossInitial, betaBoundary, betaInitial)
  {
    var initial := initialEz + initialHx + initialHy;
    LossRecord(pde, boundary, initial, TotalLoss(pde, boundary, initial, betaBoundary, betaInitial))
  }

  lemma WeightedNonNegative(beta: real, loss: real)
    ensures beta >= 0.0 && loss >= 0.0 ==> beta * loss >= 0.0
  {
  }

  /** Raising either weight never lowers the total while the losses it weighs are non-negative. */
  lemma TotalLossMonotoneInWeights(pde: real, boundary: real, initial: real,
                                   betaBoundary: real, betaInitial: real, betaBoundary': real, betaInitial': real)
    requires boundary >= 0.0 && initial >= 0.0
    requires betaBoundary <= betaBoundary' && betaInitial <= betaInitial'
    ensures TotalLoss(pde, boundary, initial, betaBoundary, betaInitial)
         <= TotalLoss(pde, boundary, initial, betaBoundary', betaInitial')
  {
    WeightedNonNegative(betaBoundary' - betaBoundary, boundary);
    WeightedNonNegative(betaInitial' - betaInitial, initial);
    assert betaBoundary' * boundary - betaBoundary * boundary == (betaBoundary' - betaBoundary) * boundary;
    assert betaInitial' * initial - betaInitial * initial == (betaInitial' - betaInitial) * initial;
  }

  class DenseModel {
    var tensorDtype: DtypeArgument
    /** The PDE residual: the loss function the model was built with. */
    var lossFunction: LossArguments -> real
    var inputTensors: seq<Matrix>
    var inputTensor: Matrix
    var dirichletInput: Matrix
    var dirichletActual: Matrix
    var initialEzInput: Matrix
    var initialEzActual: Matrix
    var initialHxInput: Matrix
    var initialHxActual: Matrix
    var initialHyInput: Matrix
    var initialHyActual: Matrix
    var forceMatrix: Matrix
    var epoch: nat

    /** Stores the arguments and unpacks the nine input tensors in order. */
    constructor (lossFunction: LossArguments -> real, inputTensors: seq<Matrix>, forceFunctionValues: Matrix,
                 tensorDtype: DtypeArgument)
      requires tensorDtype.TfDtype? && |inputTensors| >= 9
      ensures this.tensorDtype == tensorDtype && this.lossFunction == lossFunction
      ensures this.inputTensors == inputTensors
      ensures inputTensor == inputTensors[0]
      ensures dirichletInput == inputTensors[1] && dirichletActual == inputTensors[2]
      ensures initialEzInput == inputTensors[3] && initialEzActual == inputTensors[4]
      ensures initialHxInput == inputTensors[5] && initialHxActual == inputTensors[6]
      ensures initialHyInput == inputTensors[7] && initialHyActual == inputTensors[8]
      ensures forceMatrix == forceFunctionValues
      ensures epoch == 0
    {
      this.tensorDtype := tensorDtype;
      this.lossFunction := lossFunction;
      this.inputTensors := inputTensors;
      inputTensor := inputTensors[0];
      dirichletInput := inputTensors[1];
      dirichletActual := inputTensors[2];
      initialEzInput := inputTensors[3];
      initialEzActual := inputTensors[4];
      initialHxInput := inputTensors[5];
      initialHxActual := inputTensors[6];
      initialHyInput := inputTensors[7];
      initialHyActual := inputTensors[8];
      forceMatrix := forceFunctionValues;
      epoch := 0;
    }

    /**
     * DenseModel(...): a dtype that is not a TensorFlow dtype raises TypeError
     * before the input list is read; a list with fewer than nine tensors then
     * raises IndexError. The learning-rate dictionary and the layers are not
     * modelled, so every other input gives a model holding the unpacked tensors.
     */
    static method Create(lossFunction: LossArguments -> real, inputTensors: seq<Matrix>, forceFunctionValues: Matrix,
                         tensorDtype: DtypeArgument) returns (r: Result<DenseModel, InitError>)
      ensures !tensorDtype.TfDtype? ==> r == Failure(TypeError(InvalidDtypeMessage))
      ensures tensorDtype.TfDtype? && |inputTensors| < 9 ==> r == Failure(IndexError)
      ensures r.Success? <==> tensorDtype.TfDtype? && |inputTensors| >= 9
      ensures r.Success? ==> fresh(r.value) && r.value.Unpacked(inputTensors) && r.value.inputTensors == inputTensors
                             && r.value.tensorDtype == tensorDtype && r.value.lossFunction == lossFunction
                             && r.value.forceMatrix == forceFunctionValues && r.value.epoch == 0
    {
      if !tensorDtype.TfDtype? {
        return Failure(TypeError(InvalidDtypeMessage));
      }
      if |inputTensors| < 9 {
        return Failure(IndexError);
      }
      var model := new DenseModel(lossFunction, inputTensors, forceFunctionValues, tensorDtype);
      return Success(model);
    }

    /** Entries 0 to 8 of the list are the interior input, the Dirichlet pair and the Ez, Hx, Hy initial pairs. */
    predicate Unpacked(inputTensors: seq<Matrix>)
      reads this
    {
      && |inputTensors| >= 9
      && inputTensor == inputTensors[0]
      && dirichletInput == inputTensors[1] && dirichletActual == inputTensors[2]
      && initialEzInput == inputTensors[3] && initialEzActual == inputTensors[4]
      && initialHxInput == inputTensors[5] && initialHxActual == inputTensors[6]
      && initialHyInput == inputTensors[7] && initialHyActual == inputTensors[8]
    }

    /**
     * The shapes a training step needs: every network output and gradient has
     * the three channels, and each sliced prediction is comparable with its
     * target values.
     */
    predicate StepShapes(network: Matrix -> Matrix, gradEz: Matrix, gradHx: Matrix, gradHy: Matrix)
      reads this
    {
      && HasThreeColumns(network(inputTensor))
      && HasThreeColumns(gradEz) && HasThreeColumns(gradHx) && HasThreeColumns(gradHy)
      && HasThreeColumns(network(dirichletInput))
      && Comparable(ColumnSlice(network(dirichletInput), 0), dirichletActual)
      && HasThreeColumns(network(initialEzInput))
      && Comparable(ColumnSlice(network(initialEzInput), 0), initialEzActual)
      && HasThreeColumns(network(initialHxInput))
      && Comparable(ColumnSlice(network(initialHxInput), 1), initialHxActual)
      && HasThreeColumns(network(initialHyInput))
      && Comparable(ColumnSlice(network(initialHyInput), 2), initialHyActual)
    }

    /**
     * The losses of one training step for the network's current weights:
     * the Dirichlet and Ez initial losses compare output column 0, the Hx
     * initial loss column 1 and the Hy initial loss column 2 with their
     * targets; the total weighs the boundary loss by betaBoundary and the sum
     * of the initial losses by betaInitial.
     */
    function TrainStep(network: Matrix -> Matrix, gradEz: Matrix, gradHx: Matrix, gradHy: Matrix,
                       betaBoundary: real := 10.0, betaInitial: real := 100.0,
                       bilinearParams: Option<map<string, real>> := None): (r: LossRecord)
      reads this
      requires StepShapes(network, gradEz, gradHx, gradHy)
      ensures r.lossPde == lossFunction(LossCallArguments(network(inputTensor), gradEz, gradHx, gradHy,
                                                          forceMatrix, bilinearParams))
      ensures r.lossDirichlet == MeanSquaredError(ColumnSlice(network(dirichletInput), 0), dirichletActual)
      ensures r.lossInitial == MeanSquaredError(ColumnSlice(network(initialEzInput), 0), initialEzActual)
                             + MeanSquaredError(ColumnSlice(network(initialHxInput), 1), initialHxActual)
                             + MeanSquaredError(ColumnSlice(network(initialHyInput), 2), initialHyActual)
      ensures r.lossDirichlet >= 0.0 && r.lossInitial >= 0.0
      ensures r.loss == TotalLoss(r.lossPde, r.lossDirichlet, r.lossInitial, betaBoundary, betaInitial)
      ensures betaBoundary >= 0.0 && betaInitial >= 0.0 ==> r.loss >= r.lossPde
    {
      var predictedDirichlet := ColumnSlice(network(dirichletInput), 0);
      var predictedInitialEz := ColumnSlice(network(initialEzInput), 0);
      var predictedInitialHx := ColumnSlice(network(initialHxInput), 1);
      var predictedInitialHy := ColumnSlice(network(initialHyInput), 2);
      var pdeResidual := lossFunction(LossCallArguments(network(inputTensor), gradEz, gradHx, gradHy,
                                                        forceMatrix, bilinearParams));
      var boundaryLoss := MeanSquaredError(predictedDirichlet, dirichletActual);
      var initialEzLoss := MeanSquaredError(predictedInitialEz, initialEzActual);
      var initialHxLoss := MeanSquaredError(predictedInitialHx, initialHxActual);
      var initialHyLoss := MeanSquaredError(predictedInitialHy, initialHyActual);
      StepRecord(pdeResidual, boundaryLoss, initialEzLoss, initialHxLoss, initialHyLoss, betaBoundary, betaInitial)
    }

    /** Called without weights, a training step weighs the boundary loss by 10 and the initial losses by 100. */
    lemma DefaultWeights(network: Matrix -> Matrix, gradEz: Matrix, gradHx: Matrix, gradHy: Matrix)
      requires StepShapes(network, gradEz, gradHx, gradHy)
      ensures var r := TrainStep(network, gradEz, gradHx, gradHy);
        r.loss == r.lossPde + 10.0 * r.lossDirichlet + 100.0 * r.lossInitial
    {
    }

    /**
     * A network that reproduces every boundary and initial target exactly
     * leaves only the PDE residual in the total, whatever the weights.
     */
    lemma ExactTargetsLeaveOnlyPdeLoss(network: Matrix -> Matrix, gradEz: Matrix, gradHx: Matrix, gradHy: Matrix,
                                       betaBoundary: real, betaInitial: real, bilinearParams: Option<map<string, real>>)
      requires StepShapes(network, gradEz, gradHx, gradHy)
      requires forall i | 0 <= i < |dirichletActual| :: network(dirichletInput)[i][0] == dirichletActual[i][0]
      requires forall i | 0 <= i < |initialEzActual| :: network(initialEzInput)[i][0] == initialEzActual[i][0]
      requires forall i | 0 <= i < |initialHxActual| :: network(initialHxInput)[i][1] == initialHxActual[i][0]
      requires forall i | 0 <= i < |initialHyActual| :: network(initialHyInput)[i][2] == initialHyActual[i][0]
      ensures var r := TrainStep(network, gradEz, gradHx, gradHy, betaBoundary, betaInitial, bilinearParams);
        r.lossDirichlet == 0.0 && r.lossInitial == 0.0 && r.loss == r.lossPde
    {
      assert MeanSquaredError(ColumnSlice(network(dirichletInput), 0), dirichletActual) == 0.0;
      assert MeanSquaredError(ColumnSlice(network(initialEzInput), 0), initialEzActual) == 0.0;
      assert MeanSquaredError(ColumnSlice(network(initialHxInput), 1), initialHxActual) == 0.0;
      assert MeanSquaredError(ColumnSlice(network(initialHyInput), 2), initialHyActual) == 0.0;
      assert betaBoundary * 0.0 == 0.0 && betaInitial * 0.0 == 0.0;
    }
  }
}
