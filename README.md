# poseidon_ai core, modelled in Dafny

This project models the numeric core of the Rust crate poseidon_ai:

- the dense matrix type `Tensor2D` (src/tensor.rs);
- the feed-forward `Network` with its forward pass, back-propagation and training loop (src/neoronet.rs);
- the darknet-style CPU kernels `flatten`, `reorg_cpu`, `weighted_sum_cpu`, `weighted_delta_cpu`, `shortcut_cpu`, `mean_cpu` and `variance_cpu` (src/blas.rs);
- the valid 2-D convolution `convolution_2d` (src/main.rs);
- the activation catalogue with its gradients and the in-place slice maps (src/activations.rs).

Every `f32` is an exact `real`, so the contracts describe the algebra and not the rounding.

The code's explicit `panic!` and `assert_eq!` become `Results.Result` values. A `Panic` carries the source's message.

Implicit panics become preconditions. These are:

- an index out of bounds;
- a `usize` subtraction that underflows;
- an integer division by zero;
- `from` reading `data[0]` of an empty grid.

`results.dfy` and `indexing.dfy` are shared helpers with no source file of their own; every other module follows one source file:

| file | module | form |
|---|---|---|
| results.dfy | `Results` | `Result` and `Option` |
| indexing.dfy | `Indexing` | mixed-radix offset arithmetic shared by the kernels |
| tensor.dfy | `Tensor` | a value datatype; the looping operations are methods proved equal to ghost specification functions |
| network.dfy | `NeuroNet` | a `class Network` whose methods update `weights`, `biases` and `data` in place, proved against ghost functions of the old state |
| blas.dfy | `Blas` | methods over arrays with the source's loops, proved against functions of the buffers' contents |
| convolution.dfy | `Convolution` | a method with the four loops, proved equal to a function |
| activations.dfy | `Activation`, `Gradient`, `Activations` | pure scalar functions, the dispatch, and in-place methods over arrays |

## Model

| member | source | states |
|---|---|---|
| `Tensor.Zeros` | src/tensor.rs:12-18 | the result is `rows` x `cols`, exactly `rows` rows of `cols` entries, every entry 0 |
| `Tensor.From` | src/tensor.rs:33-39 | needs a non-empty grid; rows is the grid's length and cols its first row's length; the data is the grid; the matrix is well formed exactly when every row is as long as the first |
| `Tensor.Random` | src/tensor.rs:20-31 | the result has the requested shape and every entry `2u - 1` lies in [-1, 1) when the draws `u` lie in [0, 1) |
| `Tensor.Map` | src/tensor.rs:110-118 | every row of `data`, ragged or not, is mapped entry by entry with `f`, so entry (i, j) becomes `f(a[i][j])` and each row keeps its length; the extents are re-read from the data, and a well-formed matrix keeps its shape; `data` needs a row because `from` reads it |
| `Tensor.Product` | src/tensor.rs:41-60 | the product is `a.rows` x `b.cols` and entry (i, j) is the sum over k of `a[i][k] * b[k][j]` |
| `Tensor.Multiply` | src/tensor.rs:41-60 | panics with the source's message unless `a.cols == b.rows`, whatever the data; otherwise returns the product, which needs every entry below the extents to exist |
| `Tensor.Combine` | src/tensor.rs:62-108 | the loop shared by add, dot_multiply and subtract: panics with the given message when rows or cols differ, whatever the data; otherwise combines the entries position by position |
| `Tensor.Add` | src/tensor.rs:62-76 | panics with the source's message on a shape mismatch, ragged data included; otherwise a same-shape matrix of entrywise sums |
| `Tensor.DotMultiply` | src/tensor.rs:78-92 | panics with the source's message on a shape mismatch, ragged data included; otherwise a same-shape matrix of entrywise products |
| `Tensor.Subtract` | src/tensor.rs:94-108 | panics with the source's message on a shape mismatch, ragged data included; otherwise a same-shape matrix of entrywise differences |
| `Tensor.Transpose` | src/tensor.rs:120-130 | the result is `cols` x `rows` with `t[j][i] == a[i][j]`; only the entries below the extents are read, so ragged or longer data is accepted |
| `Tensor.TransposeInvolution` | src/tensor.rs:120-130 | transposing twice gives back the original matrix |
| `Tensor.AddCommutes` | src/tensor.rs:71 | `add(a, b) == add(b, a)` |
| `Tensor.DotMultiplyCommutes` | src/tensor.rs:87 | `dot_multiply(a, b) == dot_multiply(b, a)` |
| `Tensor.SubtractSelfIsZero` | src/tensor.rs:103 | `subtract(a, a)` is the zero matrix of a's shape |
| `Tensor.MapIdentity` | src/tensor.rs:110-118 | mapping the identity reproduces the matrix |
| `Tensor.AddZero` | src/tensor.rs:62-76 | adding the zero matrix changes nothing |
| `Tensor.DotMultiplyZero` | src/tensor.rs:78-92 | the Hadamard product with the zero matrix is zero |
| `Tensor.MapZero` | src/tensor.rs:110-118 | a map fixing 0 sends a zero matrix to itself |
| `Tensor.ProductZeroLeft` | src/tensor.rs:41-60 | the zero matrix times anything is zero |
| `Tensor.ProductZeroRight` | src/tensor.rs:41-60 | anything times the zero matrix is zero |
| `Tensor.ProductTransposed` | src/tensor.rs:41-60 | the transpose of `a * b` is `b^T * a^T` |
| `NeuroNet.Column` | src/neoronet.rs:55 | `from(vec![v]).transpose()` is a `|v|` x 1 column holding v |
| `NeuroNet.ColumnValues` | src/neoronet.rs:66 | `c.transpose().data[0]` of a column lists its entries in order |
| `NeuroNet.FlatColumn` | src/neoronet.rs:55-66 | reading back a column built from a vector gives the vector |
| `NeuroNet.Layer` | src/neoronet.rs:59-62 | one transition `map(f, w * x + b)` is a `w.rows` x 1 column |
| `NeuroNet.Activations` | src/neoronet.rs:55-64 | the cache after k transitions has k + 1 columns, column i of height `layers[i]` |
| `NeuroNet.Forward` | src/neoronet.rs:55-64 | the cache a forward pass leaves has one column per layer, column i of shape `layers[i]` x 1 |
| `NeuroNet.ForwardInput` | src/neoronet.rs:55-56 | the first cached column is the input as a column |
| `NeuroNet.ActivationsNext` | src/neoronet.rs:58-63 | column i + 1 of the cache is the transition applied to column i |
| `NeuroNet.ForwardStep` | src/neoronet.rs:58-64 | cached column i + 1 is `map(f, weights[i] * data[i] + biases[i])` |
| `NeuroNet.ForwardExample` | src/neoronet.rs:58-64 | topology [2, 1], identity activation, weight [[1, 1]], zero bias: input [3, 4] gives [7] |
| `NeuroNet.BackwardLayer` | src/neoronet.rs:79-87 | one backward step keeps every weight and bias shape, changes only `weights[i]` and `biases[i]`, and yields error and gradient columns of height `layers[i]` |
| `NeuroNet.Backward` | src/neoronet.rs:78-88 | the backward loop from layer k down preserves the shape invariant |
| `NeuroNet.BackPropagation` | src/neoronet.rs:74-88 | the whole backward pass preserves the shape invariant |
| `NeuroNet.BackwardZeroError` | src/neoronet.rs:78-88 | with a zero error column no weight or bias moves, at any depth |
| `NeuroNet.BackPropagationAtTarget` | src/neoronet.rs:74-88 | when outputs equal targets, back-propagation leaves every weight and bias unchanged |
| `NeuroNet.Step` | src/neoronet.rs:96-99 | one training example preserves the shape invariant, whether it panics or not |
| `NeuroNet.Run` | src/neoronet.rs:92-100 | a sequence of training steps, stopping at the first panic, preserves the shape invariant |
| `NeuroNet.Schedule` | src/neoronet.rs:92-100 | training runs exactly `epochs * inputs.len()` steps |
| `NeuroNet.ScheduleAt` | src/neoronet.rs:92-100 | step `e * inputs.len() + j` uses example j, so examples go in input order in every epoch |
| `NeuroNet.SchedulePrefix` | src/neoronet.rs:92 | the steps of fewer epochs are a prefix of the steps of more |
| `NeuroNet.RunStopsAtPanic` | src/neoronet.rs:96-99 | once a prefix panics, the rest of the steps never run |
| `NeuroNet.RunAppend` | src/neoronet.rs:92-100 | running two step sequences back to back continues the second from where the first stopped |
| `NeuroNet.RunEpoch` | src/neoronet.rs:92-100 | epoch e + 1 continues from the state that epoch e left |
| `NeuroNet.RunEndsEarly` | src/neoronet.rs:92-100 | a panic in the first e epochs is the outcome of the whole training run |
| `NeuroNet.ScheduleAdmissible` | src/neoronet.rs:92-100 | when every example meets the width requirements, so does every step of the training run |
| `NeuroNet.Training` | src/neoronet.rs:91-101 | the state a whole training run leaves satisfies the shape invariant |
| `NeuroNet.EpochAdvance` | src/neoronet.rs:92-100 | after each epoch, training either goes on from the new state or has already ended with that panic |
| `NeuroNet.Network.constructor` | src/neoronet.rs:27-48 | creates `layers.len() - 1` weights and biases, `weights[i]` random of shape `layers[i+1]` x `layers[i]` and `biases[i]` of shape `layers[i+1]` x 1; the cache is empty |
| `NeuroNet.Network.FeedForward` | src/neoronet.rs:50-67 | panics with "Invalid inputs length" unless the input has `layers[0]` entries, whatever the layer widths; otherwise `data` becomes the forward cache and the result is its last column, of the last layer's width |
| `NeuroNet.Network.ForwardLoop` | src/neoronet.rs:55-64 | the loop leaves the forward cache in `data` and returns its last column |
| `NeuroNet.Network.ForwardLayer` | src/neoronet.rs:59-62 | the loop body computes one layer transition |
| `NeuroNet.Network.BackPropagate` | src/neoronet.rs:69-89 | panics with "Invalid targets length" unless the targets match the last layer, and with subtract's message unless the outputs match too, whatever the layer widths and the cache; otherwise updates the weights and biases as the backward pass, keeping the shape invariant |
| `NeuroNet.Network.BackwardFrom` | src/neoronet.rs:78-88 | the reverse loop leaves the weights and biases the backward pass computes |
| `NeuroNet.Network.UpdateLayer` | src/neoronet.rs:79-87 | updates `weights[i]` before propagating the error through it, as the source does |
| `NeuroNet.Network.TrainStep` | src/neoronet.rs:97-98 | one forward pass then one backward pass, as one step |
| `NeuroNet.Network.TrainEpoch` | src/neoronet.rs:96-99 | one pass over the examples in input order, ending at a panic |
| `NeuroNet.Network.TrainRound` | src/neoronet.rs:92-100 | one epoch of the outer loop: training either continues into epoch e + 1 from the new state or has ended with this panic |
| `NeuroNet.Network.Train` | src/neoronet.rs:91-101 | the new state and outcome are `Training` of the old state: the `epochs * inputs.len()` steps in order, stopping at the first panic; the shape invariant holds afterwards |
| `Blas.SwapDigitsInverse` | src/blas.rs:44-45 | exchanging flatten's two fastest index digits stays in the buffer and undoes itself |
| `Blas.Flattened` | src/blas.rs:39-56 | the flattened buffer has the input's length |
| `Blas.FlattenRoundTrip` | src/blas.rs:39-56 | flatten forward then backward (or backward then forward) restores the buffer |
| `Blas.FlattenOffsets` | src/blas.rs:44-45 | the two offsets flatten computes are a mixed-radix position and its digit swap |
| `Blas.Flatten` | src/blas.rs:39-56 | needs exactly `size * layers * batch` values; leaves the flattened contents in `x` |
| `Blas.FlattenInto` | src/blas.rs:40-54 | the loops fill the zeroed swap buffer with the flattened contents |
| `Blas.ReorgExtents` | src/blas.rs:15-26 | a non-empty reorg has positive extents on both sides |
| `Blas.ReorgPositive` | src/blas.rs:15-26 | both sides of a reorg hold `w * h * c * batch` values |
| `Blas.ReorgInverse` | src/blas.rs:21-26 | every `out_index` is in the buffer, and the in-to-out map has the out-to-in map as inverse |
| `Blas.ReorgInverseOut` | src/blas.rs:21-26 | the out-to-in map is in bounds and has the in-to-out map as inverse |
| `Blas.Reorged` | src/blas.rs:28-32 | the reorganised buffer has `out`'s length |
| `Blas.ReorgRoundTrip` | src/blas.rs:28-32 | reorg forward and then backward restores the first `w * h * c * batch` values |
| `Blas.ReorgOffsets` | src/blas.rs:21-26 | the source's `in_index` is inside the buffer and its `out_index` is the in-to-out map |
| `Blas.ReorgCpu` | src/blas.rs:5-37 | `out` ends with the reorganised contents of `x`; entries past `w * h * c * batch` are unchanged and `x` is only read |
| `Blas.BlendBetween` | src/blas.rs:60 | a gate in [0, 1] keeps the blend between its two inputs |
| `Blas.BlendEnds` | src/blas.rs:60 | gate 1 selects `a`, gate 0 selects `b` |
| `Blas.BlendSlopes` | src/blas.rs:75-80 | the increments `dc*s`, `dc*(1-s)` and `dc*(a-b)` are the blend's exact partial derivatives |
| `Blas.WeightedSumCpu` | src/blas.rs:58-62 | each `c[i]` becomes `s[i]*a[i] + (1-s[i])*b[i]`, with an absent `b` read as 0 |
| `Blas.WeightedDeltaAt` | src/blas.rs:74-80 | one iteration adds to entry i of `ds` and of each present `da`/`db`, and touches no other entry |
| `Blas.WeightedDeltaCpu` | src/blas.rs:64-82 | adds `dc[i]*s[i]` to `da[i]`, `dc[i]*(1-s[i])` to `db[i]` and `dc[i]*(a[i]-b[i])` to `ds[i]` below `dc.len()`; absent buffers are skipped and later entries kept |
| `Blas.ScaledBelow` | src/blas.rs:103-115 | an index below the smaller extent, scaled by the clamped stride or sample, stays inside the larger extent |
| `Blas.ShortcutOutCoord` | src/blas.rs:114 | each visited step's `out` coordinates lie inside `out`'s extents |
| `Blas.ShortcutAddCoord` | src/blas.rs:115 | each visited step's `add` coordinates lie inside `add`'s extents |
| `Blas.ShortcutStepInverse` | src/blas.rs:110-115 | each step writes its own `out` offset, and no other step writes it |
| `Blas.ShortcutOffsetInverse` | src/blas.rs:110-115 | every visited offset is written by exactly the step it maps back to |
| `Blas.ShortcutFullBuffers` | src/blas.rs:110-115 | buffers holding the full volumes are large enough for every step |
| `Blas.Shortcut` | src/blas.rs:110-121 | the shortcut contents have `out`'s length |
| `Blas.ShortcutKeeps` | src/blas.rs:117 | with `s1 = 1` and `s2 = 0` the shortcut leaves `out` unchanged |
| `Blas.ShortcutSameShape` | src/blas.rs:110-121 | with equal shapes the assertions hold and `out` becomes `s1*out + s2*add` entrywise over the whole volume |
| `Blas.ShortcutOffsets` | src/blas.rs:114-115 | the source's `out_index` and `add_index` expressions are the step's offsets |
| `Blas.ShortcutCpu` | src/blas.rs:84-122 | panics with `assert_eq!`'s message unless `w1/w2 == h1/h2` and `w2/w1 == h2/h1`, leaving `out` alone; otherwise each visited entry becomes `s1*out + s2*add` and every other entry is unchanged |
| `Blas.EntryOffset` | src/blas.rs:131 | the source's offset `j*filters*spatial + i*spatial + k` lies inside the batch |
| `Blas.MeanWithin` | src/blas.rs:124-137 | the mean of a filter lies between any lower and upper bound of its entries |
| `Blas.MeanOfTotal` | src/blas.rs:125-135 | scaling a filter sum between `n * lo` and `n * hi` by `1 / n` gives a mean between lo and hi |
| `Blas.TotalWithin` | src/blas.rs:129-134 | the sum over a filter lies between `n * lo` and `n * hi` |
| `Blas.MeanOfConstant` | src/blas.rs:124-137 | a constant filter has that constant as its mean |
| `Blas.VarianceNonNegative` | src/blas.rs:139-159 | with `batch * spatial >= 2` the variance is never negative |
| `Blas.VarianceOfConstant` | src/blas.rs:139-159 | a filter equal to its mean everywhere has variance 0 |
| `Blas.SumInto` | src/blas.rs:128-134 | the accumulation loops leave the sum over filter i in `out[i]` and no other entry changes |
| `Blas.MeanCpu` | src/blas.rs:124-137 | `mean[i]` becomes the sum of filter i's entries divided by `batch * spatial`, for every filter; later entries are kept |
| `Blas.VarianceCpu` | src/blas.rs:139-159 | `variance[i]` becomes the squared deviations of filter i from `mean[i]` divided by `batch * spatial - 1`; later entries are kept |
| `Convolution.Convolved` | src/main.rs:3-17 | the output has exactly `(R-K+1) * (C-L+1)` values |
| `Convolution.ConvolvedAt` | src/main.rs:9-19 | the output is row-major: entry `i*(C-L+1) + j` is the window sum at (i, j) plus padding |
| `Convolution.Window` | src/main.rs:11-16 | the two inner loops compute the window's weighted sum |
| `Convolution.Convolution2D` | src/main.rs:1-21 | for an input and kernel that do not make the source panic, returns the convolved output |
| `Convolution.IdentityWindow` | src/main.rs:12-16 | the 1 x 1 kernel of weight 1 reads the single input entry under it |
| `Convolution.IdentityKernel` | src/main.rs:1-21 | the 1 x 1 kernel of weight 1 without padding reproduces the input, row by row |
| `Convolution.ZeroKernel` | src/main.rs:1-21 | an all-zero kernel outputs the padding at every position |
| `Activation.Logistic` | src/activations.rs:83-85 | logistic lies strictly between 0 and 1 |
| `Activation.Relu` | src/activations.rs:88-94 | relu is the larger of x and 0 |
| `Activation.Relie` | src/activations.rs:97-103 | relie never lies below x and has x's sign |
| `Activation.Linear` | src/activations.rs:106-108 | linear returns its input |
| `Activation.Ramp` | src/activations.rs:111-117 | ramp never lies below x and has x's sign |
| `Activation.TanH` | src/activations.rs:120-123 | tanh lies strictly between -1 and 1 |
| `Activation.Plse` | src/activations.rs:126-134 | plse lies in [0, 1] exactly on [-4, 4], below 0 to the left and above 1 to the right |
| `Activation.Leaky` | src/activations.rs:137-143 | leaky never lies below x and has x's sign |
| `Activation.Elu` | src/activations.rs:146-152 | elu lies above -1 |
| `Activation.Loggy` | src/activations.rs:155-157 | loggy lies strictly between -1 and 1 |
| `Activation.Stair` | src/activations.rs:160-167 | stair keeps x's floor, lies in (x - 1, x + 1/2], and is a whole number exactly when the floor is even |
| `Activation.HardTan` | src/activations.rs:170-178 | hard_tan lies in [-1, 1] and is x on [-1, 1] |
| `Activation.LhTan` | src/activations.rs:181-189 | lh_tan is x on [0, 1], below 0 to the left and above 1 to the right |
| `Activation.Selu` | src/activations.rs:192-198 | selu is at least x from 0 up and lies above -1.0507 * 1.6732 |
| `Gradient.Logistic` | src/activations.rs:203-205 | the logistic gradient `(1 - y) y` is at most 1/4 |
| `Gradient.Relu` | src/activations.rs:208-214 | the relu gradient is 0 or 1 |
| `Gradient.Relie` | src/activations.rs:217-223 | the relie gradient is in (0, 1], and 1 exactly on the positive side |
| `Gradient.Linear` | src/activations.rs:226-228 | the linear gradient is 1 everywhere |
| `Gradient.Ramp` | src/activations.rs:231-237 | the ramp gradient is positive |
| `Gradient.TanH` | src/activations.rs:240-242 | the tanh gradient `1 - y^2` is at most 1 |
| `Gradient.Plse` | src/activations.rs:245-251 | the plse gradient is positive |
| `Gradient.Leaky` | src/activations.rs:254-260 | the leaky gradient is in (0, 1], and 1 exactly on the positive side |
| `Gradient.Elu` | src/activations.rs:263-269 | the elu gradient is positive |
| `Gradient.Loggy` | src/activations.rs:272-275 | the loggy gradient is at most 1/2 |
| `Gradient.Stair` | src/activations.rs:278-284 | the stair gradient is 0 at whole numbers and 1 elsewhere |
| `Gradient.HardTan` | src/activations.rs:287-293 | the hard_tan gradient is 0 or 1 |
| `Gradient.LhTan` | src/activations.rs:296-302 | the lh_tan gradient is positive |
| `Gradient.Selu` | src/activations.rs:305-311 | the selu gradient is positive on every value selu can output |
| `Activations.Activate` | src/activations.rs:29-47 | each variant goes to the activation of the same name and keeps that activation's range: logistic in (0, 1), tanh and loggy in (-1, 1), hard_tan in [-1, 1], relu non-negative, elu above -1, and so on |
| `Activations.Gradient` | src/activations.rs:55-73 | each variant goes to the gradient of the same name and keeps its range: 0 or 1 for relu, stair and hard_tan, positive for relie, linear, ramp, plse, leaky, elu and lh_tan, at most 1/4, 1 and 1/2 for logistic, tanh and loggy |
| `Activations.GradientIsSlope` | src/activations.rs:29-73 | for relu, relie, linear, ramp, plse, leaky, hard_tan and lh_tan, the gradient taken at the output of x is the slope of the activation between x and any point on the same piece |
| `Activations.Monotone` | src/activations.rs:29-47 | the piecewise-linear activations never decrease |
| `Activations.LinearIsIdentity` | src/activations.rs:106-108 | linear is the identity and its gradient is 1 |
| `Activations.Idempotent` | src/activations.rs:29-47 | relu, linear, stair and hard_tan give back their own outputs unchanged |
| `Activations.ActivateAll` | src/activations.rs:49-53 | activating a slice keeps its length |
| `Activations.GradientAll` | src/activations.rs:75-79 | taking gradients of a slice keeps its length |
| `Activations.ActivateVector` | src/activations.rs:49-53 | each element is replaced by its activation, in place; the length is kept |
| `Activations.GradientVector` | src/activations.rs:75-79 | each element is replaced by its gradient, in place; the length is kept |
| `Activations.ActivateAllIdempotent` | src/activations.rs:49-53 | activating a slice twice with relu, linear, stair or hard_tan is the same as once |

## Left out

- `Tensor2D::random` draws from `thread_rng`. `Tensor.Random` takes the draws as a parameter `u` with values in [0, 1). The network constructor takes one such function per call.
- `Debug` for `Tensor2D` (src/tensor.rs:133-150) and `Display` for `ActivationFunction` (src/activations.rs:23-27) are string formatting and are not modelled.
- `Network::save` and `Network::load` (src/neoronet.rs:103-133) are file I/O through serde_json and are not modelled.
- The progress `println!` in `train` (src/neoronet.rs:93-95) is console output. Its `epochs / 100` is never a division by zero, so it cannot change the outcome.
- `l2normalize_cpu` (src/blas.rs:161-183) needs `sqrt` and is not modelled.
- `main` (src/main.rs:23-38) is a demo that prints and is not modelled.
- IEEE `f32` rounding, infinities and NaN are not modelled. Every value is a `real`.
- The exponential used by logistic, tanh, elu, loggy and selu is a parameter `Activation.Exp`: any positive-valued function. The bounds proved for those activations use only its positivity. Nothing that depends on `exp`'s exact values is modelled.
- src/neoronet.rs:9 imports an `activations::Activation` type that src/activations.rs does not define, and src/main.rs declares no modules. `NeuroNet.Activation` is therefore an abstract `(func, derivative)` pair of real functions. It is not tied to `ActivationFunction`.
- `u64` epochs and `usize` sizes are unbounded `nat`. No overflow is modelled.
- Rust's borrow rules guarantee that `&mut` buffers are distinct from each other and from the shared ones. The array methods state this as explicit `requires` (`x != out`, `!!` on the optional buffers). Aliasing is therefore not modelled.
- `Blas.MeanCpu`: requires `batch * spatial > 0` when there is a filter. With no entries, the source scales by `1.0 / 0.0` and stores NaN, which a `real` cannot represent.
- `Blas.VarianceCpu`: requires `batch * spatial != 1` when there is a filter. With exactly one entry, the source scales by `1.0 / 0.0` and stores NaN or infinity.
- `Blas.ReorgCpu`: requires `c` to be a multiple of `stride * stride`, even where the source would not panic. When `0 < c < stride * stride`, `out_c` is 0, and the source panics on `k % out_c` only if `w`, `h` and `batch` are all positive; with an empty extent its loops never run and it returns with `out` unchanged. For other values of `c` the index maps are not inverse to each other, and that write pattern is not modelled.
- `Blas.ShortcutCpu`: requires every visited offset to lie inside its buffer, positive `w1`, `w2` and `h2`, and a positive `h1` whenever `w1 / w2 == h1 / h2`. On those inputs the source instead panics on an out-of-bounds index or a division by zero. A zero `h1` with `w1 / w2 != h1 / h2` is admitted and reaches the modelled `assert_eq!` panic. `Blas.ShortcutFullBuffers` shows that full-volume buffers meet the bounds requirement.
- `Blas.ShortcutCpu`: the `assert_eq!` panic message is reduced to its first line. The source's message also prints the two compared values.
- `Convolution.Convolution2D`: requires `Convolution.Shaped`. That is exactly the condition under which the source neither indexes out of bounds nor underflows `usize`: a non-empty input and kernel, a kernel no larger than the input, and rows at least as long as the first.
- `NeuroNet.Network.FeedForward`: when the input has `layers[0]` entries, requires every layer after the first to be positive. `map` reads `data[0]` through `from`, so the source panics on a zero-height column instead. The "Invalid inputs length" panic needs no such requirement.
- `NeuroNet.Network.BackPropagate`: when the targets and the outputs both match the last layer, requires every layer to be positive and, with more than one layer, a non-empty cache. The source panics in `map` or on `data[i]` instead. The "Invalid targets length" panic and the mismatched `subtract` panic need no such requirement.
- `NeuroNet.Network.Train`: requires at least as many targets as inputs, because `targets[j]` would otherwise index out of bounds. It also requires every example to meet the width requirements of `FeedForward` and `BackPropagate`, even an example that comes after a panic and so is never run.
- `Activations.GradientIsSlope` and `Activations.Monotone` leave out stair, whose gradient is not its slope. They also leave out the `exp`-based activations.
