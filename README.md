# FastVPINNs residual kernels and the transient PINN training step, in Dafny

This project models two parts of SciREX's scientific machine learning code.

The first part is three FastVPINNs loss kernels. Each one turns the test-function tensors of a mesh
and the network's solution values and derivatives into one loss per element (cell):
- `pde_loss_poisson_inverse`: Poisson with an unknown constant diffusion coefficient `eps`;
- `pde_loss_helmholtz`: Helmholtz with diffusion `eps` and wave number `k`;
- `pde_loss_cd2d_inverse_domain`: convection-diffusion whose diffusion coefficient is a
  network output at each quadrature point.

Every kernel works the same way. It builds a (T, E) residual matrix, with one row per test function
and one column per element. The entries come from weighted test-function contractions,
`transpose(matvec(test, u))`, minus the forcing. The kernel then squares the matrix and averages it
over the test functions.

The second part is `DenseModel` of the transient three-field (Ez, Hx, Hy) PINN. The model covers:
- the constructor's dtype check and its unpacking of the nine input tensors;
- the loss arithmetic of `train_step`: which output columns each loss compares with its targets, how
  the gradient columns are passed to the PDE loss, and how the four losses are weighted into the total.

Modules:
- `TensorOps` (`tensor_ops.dfy`): the TensorFlow operations the kernels use, on `seq<seq<real>>`
  matrices and `seq<seq<seq<real>>>` tensors. These are `matvec`, `transpose`, element-wise
  `+ - *`, scalar scaling, `square`, and `reduce_mean` along axis 0 and over all entries. The module
  also holds the lemmas about these operations that the kernels share.
- `Poisson2DInverse`, `Helmholtz2D`, `Cd2dInverseDomain`: one module per kernel. Each one has the
  residual matrix, the kernel itself, and the lemmas about them.
- `ModelVectorTransient`: the `DenseModel` class, with its fields, constructor and factory method,
  the training step as a function of the current weights, and the loss helpers.

Two notations:
- E is the number of elements, which is the leading axis of the test-function tensors.
- T is the number of test functions per element, which is the number of rows of the forcing.

Two behaviours of the code worth stating directly:
- `eps` scales the summed contraction once. So the one-element Poisson case with `eps` = 2,
  contraction 2 and forcing 2 gives the loss [4.0], as `Poisson2DInverse.SingleElementExample` shows.
- A `tensor_dtype` that is not a TensorFlow dtype raises `TypeError` with the message
  "The given dtype is not a valid tensorflow dtype".

## Model

| member | source | states |
|---|---|---|
| TensorOps.Contract | scirex/core/sciml/fastvpinns/physics/poisson2d_inverse.py:95-98 | `transpose(matvec(g, v))` is a (T, E) matrix. Entry [i][j] is the quadrature sum of test function i of element j weighted by element j's solution values. |
| TensorOps.ReduceMeanAxis0OfSquares | scirex/core/sciml/fastvpinns/physics/poisson2d_inverse.py:105 | `reduce_mean(square(m), axis=0)` gives, for each column (element), the mean of its squared entries, and that mean is non-negative. |
| Poisson2DInverse.ResidualMatrix | scirex/core/sciml/fastvpinns/physics/poisson2d_inverse.py:95-103 | The residual has shape (T, E). Entry [t][e] is `eps` times the sum of the x and y gradient contractions, minus `forcing[t][e]`. |
| Poisson2DInverse.PdeLossPoissonInverse | scirex/core/sciml/fastvpinns/physics/poisson2d_inverse.py:50-107 | One loss per element. Each loss is non-negative and is the mean over the test functions of the squared residual column, with `eps` taken from the inverse parameters. |
| Poisson2DInverse.EpsScaling | scirex/core/sciml/fastvpinns/physics/poisson2d_inverse.py:101 | Multiplying `eps` by c multiplies the diffusion part of every residual entry (the residual plus the forcing) by c. |
| Poisson2DInverse.ForcingShift | scirex/core/sciml/fastvpinns/physics/poisson2d_inverse.py:103 | Adding d to every forcing entry lowers every residual entry by exactly d. |
| Poisson2DInverse.IgnoresUnusedArguments | scirex/core/sciml/fastvpinns/physics/poisson2d_inverse.py:50-60 | The test-function values, the solution values and the bilinear parameters are accepted but have no effect on the loss. Only `eps` among the inverse parameters matters. |
| Poisson2DInverse.ZeroEps | scirex/core/sciml/fastvpinns/physics/poisson2d_inverse.py:101-105 | With `eps` = 0, each element's loss is the mean of the squares of its forcing column. |
| Poisson2DInverse.ExactSolutionHasZeroLoss | scirex/core/sciml/fastvpinns/physics/poisson2d_inverse.py:103-105 | When the weak form holds exactly at every test function of every element, the loss is zero for every element. |
| Poisson2DInverse.SingleElementExample | scirex/core/sciml/fastvpinns/physics/poisson2d_inverse.py:95-105 | A one-element case with `eps` = 2, contraction 2 and forcing 2 gives the loss [4.0]. |
| Helmholtz2D.Diffusion | scirex/core/sciml/fastvpinns/physics/helmholtz2d.py:94-100 | A (T, E) matrix whose entry [i][j] is `eps` times the sum of the x and y gradient contractions. |
| Helmholtz2D.WaveTerm | scirex/core/sciml/fastvpinns/physics/helmholtz2d.py:103-105 | A (T, E) matrix whose entry [i][j] is `k*k` times the contraction of the solution values with the test-function values. |
| Helmholtz2D.ResidualMatrix | scirex/core/sciml/fastvpinns/physics/helmholtz2d.py:107 | Each residual entry is minus the diffusion entry, plus the wave-term entry, minus the forcing entry. |
| Helmholtz2D.PdeLossHelmholtz | scirex/core/sciml/fastvpinns/physics/helmholtz2d.py:49-111 | One non-negative loss per element: the mean over the test functions of the squared residual column, with `eps` and `k` read from the bilinear parameters. |
| Helmholtz2D.WaveNumberSign | scirex/core/sciml/fastvpinns/physics/helmholtz2d.py:103 | Replacing `k` by `-k` leaves the loss unchanged. |
| Helmholtz2D.SameSquareSameResidual | scirex/core/sciml/fastvpinns/physics/helmholtz2d.py:103-107 | Two wave numbers with the same square give the same residual matrix: only `k ** 2` matters. |
| Helmholtz2D.ZeroWaveNumber | scirex/core/sciml/fastvpinns/physics/helmholtz2d.py:103-107 | With `k` = 0, each residual entry is minus the diffusion entry minus the forcing. |
| Helmholtz2D.ForcingShift | scirex/core/sciml/fastvpinns/physics/helmholtz2d.py:107 | Adding d to every forcing entry lowers every residual entry by exactly d. |
| Helmholtz2D.ExactSolutionHasZeroLoss | scirex/core/sciml/fastvpinns/physics/helmholtz2d.py:107-109 | When minus the diffusion plus the wave term equals the forcing everywhere, the loss is zero for every element. |
| Helmholtz2D.SingleElementExample | scirex/core/sciml/fastvpinns/physics/helmholtz2d.py:94-109 | A one-element case with `eps` = 1, `k` = 2, unit value and unit test function, zero gradients and zero forcing gives the loss [16.0]. |
| Cd2dInverseDomain.Diffusion | scirex/core/sciml/fastvpinns/physics/cd2d_inverse_domain.py:102-113 | The diffusion entry [i][j] is the contraction of the test gradients with the solution gradients, each multiplied point by point by the learned coefficient. |
| Cd2dInverseDomain.Convection | scirex/core/sciml/fastvpinns/physics/cd2d_inverse_domain.py:116-122 | The convection entry is `b_x` times the test-value contraction of the x derivative plus `b_y` times that of the y derivative. |
| Cd2dInverseDomain.Reaction | scirex/core/sciml/fastvpinns/physics/cd2d_inverse_domain.py:126-128 | The reaction entry is `c` times the contraction of the solution values with the test-function values. |
| Cd2dInverseDomain.ResidualMatrix | scirex/core/sciml/fastvpinns/physics/cd2d_inverse_domain.py:130 | Each residual entry is diffusion plus convection plus reaction, minus the forcing. |
| Cd2dInverseDomain.PdeLossCd2dInverseDomain | scirex/core/sciml/fastvpinns/physics/cd2d_inverse_domain.py:48-135 | One non-negative loss per element: the mean over the test functions of the squared residual column. The coefficient is the first entry of the inverse parameter list. |
| Cd2dInverseDomain.ConstantCoefficientDiffusion | scirex/core/sciml/fastvpinns/physics/cd2d_inverse_domain.py:111-113 | A coefficient that is the constant kappa at every point makes the premultiplied diffusion equal to kappa times the plain gradient contractions. |
| Cd2dInverseDomain.WithoutConvectionAndReaction | scirex/core/sciml/fastvpinns/physics/cd2d_inverse_domain.py:116-130 | With `b_x` = `b_y` = `c` = 0, the residual is the diffusion minus the forcing. |
| Cd2dInverseDomain.ReducesToPoissonInverse | scirex/core/sciml/fastvpinns/physics/cd2d_inverse_domain.py:99-133 | A constant coefficient kappa, together with `b_x` = `b_y` = `c` = 0, gives exactly the Poisson inverse loss with `eps` = kappa. |
| Cd2dInverseDomain.OnlyFirstInverseParameterMatters | scirex/core/sciml/fastvpinns/physics/cd2d_inverse_domain.py:99 | Dropping every entry of the inverse parameter list after the first leaves the loss unchanged. |
| Cd2dInverseDomain.ForcingShift | scirex/core/sciml/fastvpinns/physics/cd2d_inverse_domain.py:130 | Adding d to every forcing entry lowers every residual entry by exactly d. |
| Cd2dInverseDomain.ExactSolutionHasZeroLoss | scirex/core/sciml/fastvpinns/physics/cd2d_inverse_domain.py:130-133 | When diffusion plus convection plus reaction equals the forcing everywhere, the loss is zero for every element. |
| ModelVectorTransient.ColumnSlice | scirex/core/sciml/pinns/model/model_vector_transient.py:279-290 | `m[:, j:j+1]` is an (N, 1) matrix holding column j of m. |
| ModelVectorTransient.MeanSquaredError | scirex/core/sciml/pinns/model/model_vector_transient.py:339-353 | `reduce_mean(square(predicted - actual))` is non-negative, and it is zero when the prediction equals the targets. |
| ModelVectorTransient.MeanSquaredErrorSymmetric | scirex/core/sciml/pinns/model/model_vector_transient.py:339-341 | Swapping the prediction and the targets leaves the error unchanged. |
| ModelVectorTransient.LossCallArguments | scirex/core/sciml/pinns/model/model_vector_transient.py:297-336 | Ez, Hx and Hy are output columns 0, 1 and 2. For each field, the x, y and t partials are columns 0, 1 and 2 of its gradient. The force matrix is passed as all three forcing functions, and the bilinear parameters are passed through unchanged. |
| ModelVectorTransient.ChannelsAreSeparate | scirex/core/sciml/pinns/model/model_vector_transient.py:299-301 | A field's prediction depends only on its own output column. |
| ModelVectorTransient.TotalLoss | scirex/core/sciml/pinns/model/model_vector_transient.py:355-359 | The total is at least the PDE loss when the boundary and initial losses and the weights are non-negative. |
| ModelVectorTransient.TotalLossMonotoneInWeights | scirex/core/sciml/pinns/model/model_vector_transient.py:355-359 | Raising either weight never lowers the total while the losses it weighs are non-negative. |
| ModelVectorTransient.StepRecord | scirex/core/sciml/pinns/model/model_vector_transient.py:368-373 | The returned dictionary holds the PDE loss, the Dirichlet loss, the sum of the three initial losses, and their weighted total. |
| ModelVectorTransient.DenseModel.constructor | scirex/core/sciml/pinns/model/model_vector_transient.py:144-163 | Stores the dtype, loss function and force matrix. Entries 0 to 8 of the input list become the interior input, the Dirichlet pair and the Ez, Hx, Hy initial pairs. The epoch starts at 0. |
| ModelVectorTransient.DenseModel.Create | scirex/core/sciml/pinns/model/model_vector_transient.py:147-161 | A dtype that is not a TensorFlow dtype fails with TypeError and its message, before the list is read. A list of fewer than nine tensors fails with IndexError. As modelled, construction succeeds exactly when neither happens, and the model then holds the input list, the nine unpacked tensors, the dtype, the loss function and the force matrix, with epoch 0. |
| ModelVectorTransient.DenseModel.TrainStep | scirex/core/sciml/pinns/model/model_vector_transient.py:274-373 | The PDE loss is the loss function applied to the sliced arguments. The Dirichlet and Ez initial losses compare output column 0 with their targets, the Hx loss column 1 and the Hy loss column 2. These losses are non-negative. The total weighs the boundary loss by `beta_boundary` and the summed initial losses by `beta_initial`, and it is at least the PDE loss for non-negative weights. |
| ModelVectorTransient.DenseModel.DefaultWeights | scirex/core/sciml/pinns/model/model_vector_transient.py:274-276 | Without explicit weights, the total is the PDE loss + 10 × the boundary loss + 100 × the initial losses. |
| ModelVectorTransient.DenseModel.ExactTargetsLeaveOnlyPdeLoss | scirex/core/sciml/pinns/model/model_vector_transient.py:339-359 | A network that reproduces every boundary and initial target has zero boundary and initial loss, and its total equals the PDE loss for any weights. |

## Left out

- Floating point: tensors hold exact reals. Rounding, NaN, infinities and the summation order of
  TensorFlow's reductions are not modelled.
- Empty test-function axis: the kernels require at least one test function (T > 0). With none and
  at least one element, `reduce_mean` over the empty axis gives NaN, which reals cannot express. With
  no elements and no test functions TensorFlow returns an empty result, and that case is excluded too.
- `DenseModel.TrainStep` requires every network output and gradient to have at least three columns,
  and every boundary and initial set to be non-empty. In TensorFlow, a slice `[:, j:j+1]` past the
  last column gives an (N, 0) tensor instead of raising an error, and `reduce_mean` of an empty set
  gives NaN. Neither case is modelled.
- Broadcasting: the model requires operands of equal shape. TensorFlow would broadcast a (1, 1)
  coefficient or a scalar forcing.
- Missing keys and bad shapes become preconditions. A missing `eps`, `k`, `b_x`, `b_y` or `c` key
  (KeyError), an empty inverse parameter list (IndexError), and tensors of mismatched shape
  (TensorFlow's shape errors) are not modelled as error results.
- Automatic differentiation: the `GradientTape` computation of `grad_Ez`, `grad_Hx` and `grad_Hy`
  is not modelled. `DenseModel.TrainStep` receives the three gradient matrices as arguments.
- The forward pass: the layers, the attention block and `call` are not modelled.
  `DenseModel.TrainStep` receives the network as a function from inputs to outputs.
- `DenseModel.TrainStep`: the optimizer update (lines 364-366) is not modelled, because it would need
  the gradients of the loss with respect to the weights. These are the `self.gradients` assignment
  and `apply_gradients`. Without it the training step is a function of the current weights that
  changes no state.
- `DenseModel.Create`: after the input list is unpacked, `__init__` reads four keys of
  `learning_rate_dict` (model_vector_transient.py lines 188-191) and builds the layers. The KeyError
  for a missing key, and any error raised while the layers are built, are not modelled, so `Create`
  promises success whenever the dtype and list-length checks pass.
- The learning-rate schedule (`ExponentialDecay`, `learning_rate_dict`), the Adam optimizer, layer
  construction, `hessian`, printing and `copy.deepcopy` are not modelled. Sequences are values, so a
  deep copy is the identity.
- The epoch counter is only initialised to 0. No modelled operation advances it.
- `DenseModel.TrainStep`: the PDE loss function is supplied and returns a real. Its tensor result
  shape is not modelled.
- The converse of `ExactSolutionHasZeroLoss` (a zero loss implies an exact weak form) is not stated.
