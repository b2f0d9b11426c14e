# Easy Tensor Compiler — a Dafny model of its tensor and graph core

Easy Tensor Compiler builds a small neural-network expression graph over 4-D
NCHW tensors (`[batch, channels, height, width]`, stored flat and row-major) and
runs inference by evaluating the last operation added to a `NeuralNetwork`.
This project models that core and proves properties of the model:

- `Tensors` (tensor.dfy): the `Tensor` class — its constructors, `index`,
  `size`, `shape(dim)`, `reshape`, both forms of `at`, `GetData`, `+=`, `+`,
  `-=`, `-`, `*=` and `elementwise_mul`. Each works on `shape` and `data`
  fields in place, as the source does. Beside the class there is a value type
  `TensorValue` (a shape of four dimensions and exactly `product(shape)`
  elements), and the class methods are proved against functions on it.
- `Graph` (graph.dfy): the `InputData` leaf and its `setTensor`, the operation
  nodes (`ScalarAdd`, `ScalarSub`, `ScalarMul`, `ReLU`, `MatMul`, `Convol`),
  their `args_`, and `evaluate`. Evaluation is given twice: as a
  specification function `Evaluate`, and as a method `EvaluateNode` that runs
  the kernels and is proved equal to it.
- `Relu`, `MatMul`, `Convolution` (relu.dfy, matmul.dfy, convolution.dfy):
  the kernels, each a loop-level method proved against a specification
  function. For convolution there are two layers of proof. The im2col
  pipeline (`performConvolutionIm2Col`) is proved equal to its specification.
  That specification is then proved equal, element by element, to the
  textbook direct convolution sum.
- `Network` (network.dfy): `NeuralNetwork` with `addOp`, `infer`,
  `getOperations` and `clear`.
- `Scenarios` (scenarios.dfy): the test suite's worked examples, stated and
  proved on the model.
- `IndexArith` and `Results` (index_arith.dfy, results.dfy): arithmetic
  helper lemmas, and the `Result` type that stands for the source's
  exceptions and failed assertions.

Modelling choices:

- Elements are mathematical reals.
- A C++ `assert` on a caller's arguments becomes a `requires`.
- A thrown `std::invalid_argument` becomes an `Err` of the `Result` type.
- An operand is either another node or a tensor stored in the operation
  (`Operand = Node(..) | Literal(..)`). This matches how the tests and the
  convolution constructors build operations.

## Model

| member | source | states |
|---|---|---|
| Tensors.ProductZero | include/Tensor.h:81-87 | `Product`, the product of the dimensions that `size()` folds, is 0 exactly when some dimension is 0 |
| Tensors.DimProduct | include/Tensor.h:81-87 | the accumulating loop of `size()` returns the product of the dimensions |
| Tensors.Product4 | include/Tensor.h:81-87 | for four dimensions that product is `N * C * H * W` |
| Tensors.Tensor.Default | include/Tensor.h:24 | the default tensor has shape `[0, 0, 0, 0]` and no data |
| Tensors.Tensor.FromDims | include/Tensor.h:27-29 | the 4-argument constructor gives the given shape and `N*C*H*W` zeros |
| Tensors.FromShapeData | include/Tensor.h:32-43 | the `(shape, data)` constructor keeps the shape; non-empty data is stored as given, empty data gives all zeros |
| Tensors.Tensor.FromShape | include/Tensor.h:32-43 | the `(shape, data)` constructor method builds exactly `FromShapeData(shape, data)`, computing the size with the loop |
| Tensors.FromShapeDataOfValue | include/Tensor.h:32-43 | rebuilding a valid tensor from its own shape and data gives it back unchanged |
| Tensors.Tensor.Copy | include/Tensor.h:46 | the copy has the same shape and data as the original |
| Tensors.Offset | include/Tensor.h:17-20 | `index(n, c, h, w)` of a coordinate within the bounds the assert at :18 demands is below `size()` |
| Tensors.OffsetInjective | include/Tensor.h:17-20 | distinct in-bounds coordinates have distinct indices |
| Tensors.Unflatten | include/Tensor.h:17-20 | every flat position below `size()` is the index of an in-bounds coordinate (the inverse of `index`) |
| Tensors.UnflattenOffset | include/Tensor.h:17-20 | unflattening `index(n, c, h, w)` gives back `(n, c, h, w)` |
| Tensors.OffsetCarry | include/Tensor.h:17-20 | the index after the end of a row, plane or batch is the start of the next one |
| Tensors.EqualByCoordinates | include/Tensor.h:17-20 | two tensors of one shape that agree at every coordinate are equal |
| Tensors.Tensor.Dim | include/Tensor.h:75-78 | `shape(dim)` with `dim < 4` is that dimension |
| Tensors.Tensor.Size | include/Tensor.h:81-87 | `size()` equals the product of the shape and the buffer length |
| Tensors.Tensor.Reshape | include/Tensor.h:105-112 | `reshape` requires the same element count, then installs the new shape and leaves the data alone |
| Tensors.Tensor.At4 | include/Tensor.h:121-123 | the const `at(n, c, h, w)` is the buffer element at `index(n, c, h, w)`, which lies inside the buffer |
| Tensors.Tensor.SetAt | include/Tensor.h:116-118 | a write through `at(n, c, h, w)` replaces exactly the element at `index(n, c, h, w)` |
| Tensors.UpdateReadBack | include/Tensor.h:116-123 | after a write through `at`, reading the same coordinate gives the new value and every other coordinate keeps its old value |
| Tensors.Tensor.AtFlat | include/Tensor.h:131-135 | the const flat `at(idx)` with `idx < size()` is the element at the coordinate whose `index` is `idx` |
| Tensors.Tensor.SetFlat | include/Tensor.h:126-129 | a write through the flat `at(idx)` with `idx < size()` replaces exactly element `idx` |
| Tensors.Tensor.GetData | include/Tensor.h:138 | `GetData()` has `size()` elements, element `i` being the flat `at(i)` |
| Tensors.Add | include/Tensor.h:141-147 | the sum of two tensors of one shape keeps the shape and adds pointwise |
| Tensors.Sub | include/Tensor.h:156-162 | the difference keeps the shape and subtracts pointwise |
| Tensors.Scale | include/Tensor.h:171-176 | `*= k` keeps the shape and multiplies every element by `k` |
| Tensors.Hadamard | include/Tensor.h:215-222 | `elementwise_mul` keeps the shape and multiplies pointwise |
| Tensors.Tensor.AddAssign | include/Tensor.h:141-147 | `+=` requires equal shapes and leaves the old value plus `other` (also when `other` is the same tensor) |
| Tensors.Tensor.SubAssign | include/Tensor.h:156-162 | `-=` requires equal shapes and leaves the old value minus `other` |
| Tensors.Tensor.ScaleAssign | include/Tensor.h:171-176 | `*=` leaves the old value scaled by `k` |
| Tensors.Plus | include/Tensor.h:149-153 | `operator+` returns a fresh tensor holding the sum; the operands do not change |
| Tensors.Minus | include/Tensor.h:164-168 | `operator-` returns a fresh tensor holding the difference |
| Tensors.ElementwiseMul | include/Tensor.h:215-222 | `elementwise_mul` returns a fresh tensor holding the pointwise product |
| Tensors.SubUndoesAdd | include/Tensor.h:141-168 | `(A + B) - B == A` |
| Tensors.AddUndoesSub | include/Tensor.h:141-168 | `(A - B) + B == A` |
| Tensors.AddCommutative | include/Tensor.h:141-153 | `A + B == B + A` |
| Tensors.HadamardCommutative | include/Tensor.h:215-222 | `elementwise_mul(A, B) == elementwise_mul(B, A)` |
| Tensors.AddAt | include/Tensor.h:141-147 | the sum read at a coordinate is the sum of the operands read there |
| Graph.InputData.constructor | include/Operations.h:15 | the leaf stores the given tensor |
| Graph.InputData.EvaluateLeaf | include/Operations.h:17-19 | evaluating a leaf gives its stored tensor, shape and data alike |
| Graph.InputData.SetTensor | include/Operations.h:21-23 | after `setTensor(t)` the leaf evaluates to `t`, and every node that does not reach this leaf evaluates as before |
| Graph.Args | include/Operations.h:41-43 | `args_` lists only nodes built before the operation, so the graph has no cycles |
| Graph.ArgsReachLeaves | include/Operations.h:56-58 | the leaves an operation reaches are exactly those reached through its `args_` |
| Graph.ApplyElementwise | include/ScalarAddOperation.h:9-15 | the intended elementwise kernels succeed exactly when the shapes are equal, otherwise fail with the shape error, and give the pointwise sum, difference or product (ScalarAddOperation.h:9-15, ScalarSubOperation.h:9-15, ScalarMulOperation.h:9-14) |
| Graph.ElementwiseKernel | include/ScalarSubOperation.h:9-15 | the kernel as run on `Tensor` objects (copy, then `+`, `-` or `elementwise_mul`) computes `ApplyElementwise`, for each of ScalarAddOperation.h:9-15, ScalarSubOperation.h:9-15 and ScalarMulOperation.h:9-14 |
| Graph.ElementwiseAsWritten | include/ScalarMulOperation.h:9-14 | with assertions enabled, the three elementwise operations as written at ScalarAddOperation.h:9-15, ScalarSubOperation.h:9-15 and ScalarMulOperation.h:9-14 fail on every input, and on equal shapes they throw the shape error |
| Graph.GuardInverted | include/ScalarAddOperation.h:13 | on equal shapes the written guard throws where the intended kernel succeeds |
| Graph.LeavesAllocated | include/Operations.h:34-47 | every leaf a node reaches already exists when the node does |
| Graph.Evaluate | include/Operations.h:5-8 | a leaf evaluates to its tensor; ReLU succeeds exactly when its argument does and keeps its shape; a binary node evaluates both `Operand`s, left then right, succeeds only when both do, and otherwise fails with the left operand's error, or the right one's when the left succeeded; an elementwise result has the left operand's shape |
| Graph.EvaluateOperand | include/ConvolOperation.h:24-27 | a stored tensor operand gives that tensor and never fails; only a node operand can fail |
| Graph.EvaluateNode | include/Operations.h:5-8 | evaluating a node by running its operands and kernel gives `Evaluate(n)`; it changes no state, so a shared node gives the same tensor each time |
| Graph.EvaluateOperandNode | include/ConvolOperation.h:24-27 | an operand is evaluated when it is a node and taken as stored when it is a tensor |
| Relu.ReluKernel | include/ReLUOperation.h:9-19 | the loop writing `max(0, x)` into a fresh tensor of the input's shape computes `Relu(input)` |
| Relu.Relu | include/ReLUOperation.h:9-19 | ReLU keeps the shape and maps every element `x` to `x` if positive, else 0 |
| Relu.ReluNonNegative | include/ReLUOperation.h:14-16 | no element of a ReLU output is negative |
| Relu.ReluKeepsOrZeroes | include/ReLUOperation.h:14-16 | a non-negative element is kept and a negative one becomes 0 |
| Relu.ReluOfSigned | include/ReLUOperation.h:14-16 | ReLU is the identity on non-negative tensors and gives zeros on negative ones |
| Relu.ReluIdempotent | include/ReLUOperation.h:9-19 | applying ReLU twice is the same as applying it once |
| MatMul.Check | include/MatMulOperation.h:29-31 | the three checks pass exactly when batch, channels and the inner dimension agree, and fail only with one of their three errors |
| MatMul.MatMul | include/MatMulOperation.h:29-37 | matmul succeeds exactly when batch, channels and the inner dimension agree, giving the `(N, C, H_lhs, W_rhs)` product; otherwise it fails with the first failing check's error, in source order |
| MatMul.Product4DAt | include/MatMulOperation.h:34-48 | the product has shape `(N, C, H_lhs, W_rhs)`, and entry `(n, c, i, j)` is the dot product of row `i` and column `j` of slice `(n, c)` |
| MatMul.SliceLocal | include/MatMulOperation.h:39-48 | each output slice depends only on the matching input slices |
| MatMul.MultiplyByIdentity | include/MatMulOperation.h:39-48 | multiplying by identity slices gives the left operand back |
| MatMul.AccumulateEntry | include/MatMulOperation.h:43-47 | the `k` loop accumulates the dot product into one zero-initialised output entry and changes no other entry |
| MatMul.MatMulKernel | include/MatMulOperation.h:10-53 | the checks and the loop nest over every `(b, c, i, j)` compute `MatMul(lhs, rhs)` |
| MatMul.VisitedSlicesAsWritten | include/MatMulOperation.h:39-40 | the loops as written visit only the slices `(b, 0)`: the `c` loop tests and advances `b` |
| MatMul.AllSlicesCovers | include/MatMulOperation.h:39-40 | the intended loops visit every slice `(b, c)` |
| MatMul.AsWrittenSkipsChannels | include/MatMulOperation.h:39-40 | with more than one channel the loops as written miss slice `(0, 1)`, which the intended loops visit |
| Convolution.Geometry.OutHeight | include/ConvolOperation.h:47 | the output height `(H + 2p - KH) / s + 1` is at least 1 |
| Convolution.Geometry.OutWidth | include/ConvolOperation.h:48 | the output width `(W + 2p - KW) / s + 1` is at least 1 |
| Convolution.GeometryOf | include/ConvolOperation.h:30-38 | the sizes are read from the input shape and the kernel shape |
| Convolution.Im2Col | include/ConvolOperation.h:93-97 | the column matrix has `(C * KH * KW) x (OH * OW)` entries; `Im2ColAt` states each entry |
| Convolution.MatrixMultiply | include/ConvolOperation.h:114-117 | the product of an `OC x T` and a `T x P` matrix has `OC * P` entries; `MatrixMultiplyAt` states each entry |
| Convolution.Im2ColAt | include/ConvolOperation.h:93-97 | entry `(tap, position)` of the column matrix is the padded input pixel under that tap at that output position |
| Convolution.MatrixMultiplyAt | include/ConvolOperation.h:114-117 | entry `(r, q)` of the matrix product is the sum over `t` of `a[r][t] * b[t][q]` |
| Convolution.FlattenInput | include/ConvolOperation.h:83-90 | the triple loop copies batch `n` of the input into a `C * H * W` buffer in row-major order |
| Convolution.InputSliceAt | include/ConvolOperation.h:87 | element `(batch, c, h, w)` sits at `c * H * W + h * W + w` of that buffer |
| Convolution.FlattenWeights | include/ConvolOperation.h:100-112 | the quadruple loop gives the kernel's own row-major buffer, an `OC x (C * KH * KW)` matrix |
| Convolution.KernelBufferSize | include/ConvolOperation.h:100 | the weight buffer's size `OC * KH * KW * C` is the kernel's element count |
| Convolution.TapCount | include/ConvolOperation.h:80 | the column matrix's row count `KH * KW * C` is the number of kernel taps |
| Convolution.ScatterOutput | include/ConvolOperation.h:119-127 | the scatter loop writes the product block into batch `n` of the output and leaves every other element alone |
| Convolution.SpliceAt | include/ConvolOperation.h:119-127 | inside the written block the output reads the block, outside it the old contents |
| Convolution.PerformConvolutionIm2Col | include/ConvolOperation.h:68-128 | one call writes `BatchOutput(n)`, the kernel matrix times the column matrix of batch `n`, into batch `n` of the output and nothing else |
| Convolution.FillNextBatch | include/ConvolOperation.h:52-59 | filling batch `n` advances the output from the first `n` batches done to the first `n + 1` |
| Convolution.ProgressEnds | include/ConvolOperation.h:50-59 | the loop starts from the zero-filled output and ends with every batch filled |
| Convolution.ConvolveBatches | include/ConvolOperation.h:52-59 | the batch loop fills every batch of the output |
| Convolution.ConvolKernel | include/ConvolOperation.h:20-62 | the checks, the zero-filled output of shape `(N, OC, OH, OW)` and the batch loop compute `Convolve(input, weights, stride, padding)` |
| Convolution.Check | include/ConvolOperation.h:40-42 | the checks pass exactly when the channels agree and the geometry is supported, and a passing geometry describes the operands with the given stride and padding |
| Convolution.OutputSize | include/ConvolOperation.h:50 | the output tensor has `N` times one batch's `OC * OH * OW` elements |
| Convolution.RowTimesColumnIsSum | include/ConvolOperation.h:114-117 | a row-times-column sum whose terms are those of a sequence is that sequence's prefix sum |
| Convolution.TapTerm | include/ConvolOperation.h:93-117 | term `t` of product entry `(oc, oh * OW + ow)` is the weight of tap `t` times the padded input pixel under it |
| Convolution.BatchOutputIsDirect | include/ConvolOperation.h:68-128 | each entry of a batch's im2col product is the direct convolution sum |
| Convolution.BatchesAt | include/ConvolOperation.h:52-59 | block `n` of the output buffer is batch `n`'s product |
| Convolution.ConvolveAt | include/ConvolOperation.h:20-62 | every element `(n, oc, oh, ow)` of a successful convolution is `sum over (ic, kh, kw) of weights[oc, ic, kh, kw] * padded input[n, ic, oh*s + kh - p, ow*s + kw - p]` |
| Convolution.Convolve | include/ConvolOperation.h:20-62 | convolution fails with the channel error exactly when the channels differ; it fails with the geometry error exactly when the stride is zero or the kernel overhangs the padded input; otherwise the output shape is `(N, OC, (H + 2p - KH) / s + 1, (W + 2p - KW) / s + 1)` |
| Convolution.ConvolveExampleShape | include/ConvolOperation.h:47-50 | a `(1, 3, 4, 4)` input and a `(2, 3, 3, 3)` kernel with stride 1 and no padding give a `(1, 2, 2, 2)` output |
| Network.NeuralNetwork.constructor | include/NeuralNetwork.h:13 | a new network has no operations |
| Network.NeuralNetwork.AddOp | include/NeuralNetwork.h:17-20 | `addOp` appends the operation after the earlier ones, which do not change, and returns it |
| Network.NeuralNetwork.Infer | include/NeuralNetwork.h:22-25 | `infer` on an empty network gives the default tensor, otherwise the evaluation of the last operation added |
| Network.NeuralNetwork.GetOperations | include/NeuralNetwork.h:28 | `getOperations` lists the operations in the order they were added |
| Network.NeuralNetwork.Clear | include/NeuralNetwork.h:31 | after `clear` the network has no operations |
| Network.AddThenClear | include/NeuralNetwork.h:17-31 | after two `addOp`s the list is those two in order; after `clear`, `infer` gives the default tensor |
| Scenarios.AddScenario | src/Tests.cc:90-118 | adding a uniform 0.1 tensor to `[0.1 .. 1.2]` gives `[0.2 .. 1.3]` |
| Scenarios.SubScenario | src/Tests.cc:121-149 | subtracting a uniform -0.1 tensor gives `[0.2 .. 1.3]` |
| Scenarios.MulScenario | src/Tests.cc:152-180 | multiplying by a uniform 10 tensor gives `[1 .. 12]` |
| Scenarios.SampleTimesMixer | src/Tests.cc:183-218 | multiplying each `2 x 2` slice by `[[10, 1], [1, 10]]` gives the expected twelve values |
| Scenarios.MatMulScenario | src/Tests.cc:183-218 | the one-operation matmul network infers those values |
| Scenarios.ReluScenario | src/Tests.cc:224-246 | ReLU of the signed input zeroes exactly its negative elements |
| Scenarios.SetTensorScenario | include/Operations.h:21-23 | after `setTensor`, the next `infer` uses the new leaf tensor |
| Scenarios.ChainScenario | src/Tests.cc:296-326 | two chained additions of the 0.1 tensor, with the tensor on the right and then on the left, add 0.2 |

## Left out

- `SoftmaxOperation`, `Main.cc` and `operator<<` are not part of this model.
- Floating point: elements are reals, so rounding is not modelled. The
  scenarios give exact results where the tests compare within an epsilon.
- Memory management: `shared_ptr`, move construction and move assignment,
  and the raw `INode*` handles in `args_` are not modelled. A node is a
  value that refers to its operands. `InputData` is the only object with
  state, as in the source.
- Shapes of other than four dimensions: every tensor here has four. The
  source's `reshape` and `(shape, data)` constructor accept vectors of any
  length.
- `size_t` wrap-around is not modelled; integers are unbounded.
- `Convolution.Convolve`: it fails with `UnsupportedGeometry` on a zero
  stride or a kernel larger than the padded input. The source makes no such
  check. A zero stride divides by zero. A kernel larger than the padded
  input makes the unsigned subtraction in the size formula at
  ConvolOperation.h:47-48 wrap around. With stride 1 and `KH == H + 2p + 1`
  the output height wraps to exactly 0. The source then builds an empty
  `(N, OC, 0, OW)` output instead of failing. Its batch loop still runs with
  empty column and result buffers, and the scatter loop at
  ConvolOperation.h:119-127 does nothing. This holds if the `Im2Col` that is not
  modelled also writes nothing for a zero extent. Any larger overhang, or any
  overhang with a stride above 1, usually asks for an enormous output
  allocation instead. When `N` is 0, the buffer size at Tensor.h:28 is 0
  whatever the wrapped extents. The batch loop at ConvolOperation.h:52-59
  then does nothing, and the source returns an empty tensor with the wrapped
  shape. For example, input `(0, 1, 1, 1)` with weights `(1, 1, 3, 3)`,
  stride 1 and padding 0 gives an empty output whose height and width are
  `2^64 - 1`. When `N` is above 0, the batch loop runs `N` times even when
  `OC` or the other output extent is 0. Each pass sizes the column matrix at
  ConvolOperation.h:80 from the wrapped extents, and the outcome then
  depends on that allocation and on the `Im2Col` that is not modelled. For
  example, input `(1, 1, 1, 1)` with weights `(0, 1, 3, 3)` gives a column
  matrix of 9 floats for two extents of `2^64 - 1`. When the product of the
  output extents wraps around in `size_t` to a small nonzero value, the
  output buffer is too short and the scatter loop writes past its end.
- `MatrixMultiplyFast` (FastMatMul.h) and `Im2Col` (Im2Col.h) are not part
  of this model. They are given reference definitions here
  (`Convolution.MatrixMultiply`, `Convolution.Im2Col`): a row-major product,
  and the column matrix with zero padding. The reference `Im2Col` orders its
  rows by input channel, then kernel row, then kernel column (the kernel
  column varying fastest), the same order `FlattenWeights` gives the weight
  matrix's columns (ConvolOperation.h:105-107). `Convolution.ConvolveAt`
  relies on that ordering. Their NEON vectorisation is not modelled.
- MatMulOperation.h:45-46 does not compile as written. It refers to `mult`
  and `a`, which are not declared there. It also subscripts `b`, which is
  the `size_t` batch counter declared at MatMulOperation.h:39, as a
  matrix (`b[k][j]`). The model accumulates
  `lhs(b, c, i, k) * rhs(b, c, k, j)` into `result.at(b, c, i, j)`, which is
  what the surrounding code sets up.
- `BinaryOperation` stores its right operand as a tensor. Yet the matmul and
  convolution nodes, the chained test and `ConvolOperation` build
  operations from nodes or tensors on either side (`lhs_is_node_`,
  `lhs_tensor_`, which the base class does not declare). The model
  generalises this to an `Operand` on each side of every binary operation.
- Graph.ElementwiseAsWritten: it models the operations with assertions
  enabled. Under `NDEBUG` the same-shape asserts at Tensor.h:142, :157 and
  :216 vanish. Operands of different shapes then pass the inverted guard,
  and the loop over the left buffer reads the right one at the same flat
  positions. For example, lhs `(1, 1, 1, 2)` and rhs `(1, 1, 2, 1)` give a
  pointwise result with the left shape. When the right buffer is shorter,
  the reads run past its end. That outcome is not modelled.
- Graph.EvaluateNode: the graph's shared nodes are re-evaluated once per
  use, as in the source. That an operand is evaluated only once per call is
  not stated.

## Findings

| source | as written | input that shows it | evidently intended | confidence | as-written member | corrected member |
|---|---|---|---|---|---|---|
| include/ScalarAddOperation.h:13 | throws "Shapes must match" when the shapes are equal | lhs and rhs both of shape `(1, 3, 2, 2)`, as in the addition test | throw when the shapes differ, else return the sum | not executed | Graph.GuardInverted | Graph.ApplyElementwise |
| include/ScalarSubOperation.h:13 | throws "Shapes must match" when the shapes are equal | lhs and rhs both of shape `(1, 3, 2, 2)`, as in the subtraction test | throw when the shapes differ, else return the difference | not executed | Graph.ElementwiseAsWritten | Graph.ApplyElementwise |
| include/ScalarMulOperation.h:12 | throws "Shapes must match" when the shapes are equal | lhs and rhs both of shape `(1, 3, 2, 2)`, as in the multiplication test | throw when the shapes differ, else return the pointwise product | not executed | Graph.ElementwiseAsWritten | Graph.ApplyElementwise |
| include/MatMulOperation.h:40 | the channel loop tests `b < lhs_batch_size` and advances `b`, so it visits only channel 0 of each batch | lhs and rhs of shape `(1, 3, 2, 2)`, as in the matmul test: slices `(0, 1)` and `(0, 2)` are never computed | `for (c = 0; c < lhs_channels; ++c)` | not executed | MatMul.AsWrittenSkipsChannels | MatMul.MatMulKernel |
