/** Convolution of an NCHW input `(N, C, H, W)` with a kernel `(OC, C, KH, KW)`,
    one batch at a time: flatten the batch, unfold it into a column matrix
    (im2col), multiply the flattened kernel by it, and scatter the product
    into the `(N, OC, OH, OW)` output.  The same stride and the same padding
    apply to both spatial axes. */
module Convolution {
  import opened IndexArith
  import opened Tensors
  import opened Results

  /** The sizes `performConvolutionIm2Col` receives. */
  datatype Geometry = Geometry(channels: nat, height: nat, width: nat,
                               outChannels: nat, kernelHeight: nat, kernelWidth: nat,
                               stride: nat, padding: nat)
  {
    /** The output-size formula divides by a non-zero stride and does not
        subtract below zero. */
    predicate Supported()
    {
      stride > 0 && kernelHeight <= height + 2 * padding && kernelWidth <= width + 2 * padding
    }

    function OutHeight(): (oh: nat)
      requires Supported()
      ensures oh >= 1
    {
      (height + 2 * padding - kernelHeight) / stride + 1
    }

    function OutWidth(): (ow: nat)
      requires Supported()
      ensures ow >= 1
    {
      (width + 2 * padding - kernelWidth) / stride + 1
    }

    /** Output positions per channel: the columns of the im2col matrix. */
    function Positions(): (q: nat)
      requires Supported()
      ensures q >= 1
    {
      MulMono(1, OutHeight(), OutWidth());
      OutHeight() * OutWidth()
    }

    /** Kernel taps per output channel: the rows of the im2col matrix. */
    function Taps(): nat
    {
      channels * kernelHeight * kernelWidth
    }

    /** Elements of one input batch. */
    function ImageSize(): nat
    {
      channels * height * width
    }

    /** The shape of one kernel's taps, `(1, C, KH, KW)`: tap `t` is the
        coordinate `Unflatten(TapShape(), t)`. */
    function TapShape(): (s: seq<nat>)
      ensures |s| == 4 && Product(s) == Taps()
    {
      Product4([1, channels, kernelHeight, kernelWidth]);
      [1, channels, kernelHeight, kernelWidth]
    }
  }

  /** The geometry of convolving `input` with `weights`. */
  function GeometryOf(input: TensorValue, weights: TensorValue, stride: nat, padding: nat): (g: Geometry)
    ensures g.channels == input.shape[1] && g.height == input.shape[2] && g.width == input.shape[3]
    ensures g.outChannels == weights.shape[0] && g.kernelHeight == weights.shape[2] && g.kernelWidth == weights.shape[3]
    ensures g.stride == stride && g.padding == padding
  {
    Geometry(input.shape[1], input.shape[2], input.shape[3],
             weights.shape[0], weights.shape[2], weights.shape[3], stride, padding)
  }

  // ----- the two callees, given their reference meaning -----

  /** The zero-padded image: a read outside the `H x W` plane gives 0. */
  function Pixel(image: seq<real>, g: Geometry, c: nat, y: int, x: int): real
    requires |image| == g.ImageSize() && c < g.channels
  {
    if 0 <= y < g.height && 0 <= x < g.width then
      DigitsBound(c, g.channels, y, g.height);
      DigitsBound(c * g.height + y, g.channels * g.height, x, g.width);
      image[(c * g.height + y) * g.width + x]
    else
      0.0
  }

  /** Entry `(r, q)` of the column matrix: row `r` is the kernel tap
      `(c, kh, kw)`, column `q` the output position `(oh, ow)`, and the
      entry is the padded pixel that tap covers at that position. */
  function ColumnEntry(image: seq<real>, g: Geometry, r: nat, q: nat): real
    requires g.Supported() && |image| == g.ImageSize() && r < g.Taps() && q < g.Positions()
  {
    var tap := Unflatten(g.TapShape(), r);
    QuotientBound(q, g.OutHeight(), g.OutWidth());
    var oh, ow := q / g.OutWidth(), q % g.OutWidth();
    Pixel(image, g, tap.1, oh * g.stride + tap.2 - g.padding, ow * g.stride + tap.3 - g.padding)
  }

  /** A matrix given row by row, laid out row-major in one buffer. */
  function Flatten(rows: seq<seq<real>>, cols: nat): (m: seq<real>)
    requires forall i :: 0 <= i < |rows| ==> |rows[i]| == cols
    ensures |m| == |rows| * cols
  {
    if |rows| == 0 then []
    else
      assert |rows| * cols == (|rows| - 1) * cols + cols;
      Flatten(rows[..|rows| - 1], cols) + rows[|rows| - 1]
  }

  /** Entry `(r, q)` of the matrix is at `r * cols + q` of its buffer. */
  lemma {:induction false} FlattenAt(rows: seq<seq<real>>, cols: nat, r: nat, q: nat)
    requires forall i :: 0 <= i < |rows| ==> |rows[i]| == cols
    requires r < |rows| && q < cols
    ensures r * cols + q < |Flatten(rows, cols)|
    ensures Flatten(rows, cols)[r * cols + q] == rows[r][q]
  {
    var k := |rows| - 1;
    DigitsBound(r, |rows|, q, cols);
    assert |rows| * cols == k * cols + cols;
    if r < k {
      FlattenAt(rows[..k], cols, r, q);
      DigitsBound(r, k, q, cols);
    }
  }

  /** `Im2Col`: the `Taps() x Positions()` column matrix, row-major. */
  function Im2Col(image: seq<real>, g: Geometry): (cols: seq<real>)
    requires g.Supported() && |image| == g.ImageSize()
    ensures |cols| == g.Taps() * g.Positions()
  {
    Flatten(seq(g.Taps(), r requires 0 <= r < g.Taps() =>
              seq(g.Positions(), q requires 0 <= q < g.Positions() => ColumnEntry(image, g, r, q))),
            g.Positions())
  }

  /** `a[r][t] * b[t][q]` for row-major `a` (`rows x inner`) and `b`
      (`inner x cols`). */
  function Term(a: seq<real>, b: seq<real>, rows: nat, cols: nat, inner: nat, r: nat, q: nat, t: nat): real
    requires |a| == rows * inner && |b| == inner * cols
    requires r < rows && q < cols && t < inner
  {
    DigitsBound(r, rows, t, inner);
    DigitsBound(t, inner, q, cols);
    a[r * inner + t] * b[t * cols + q]
  }

  /** `sum_{t < k} a[r][t] * b[t][q]`. */
  function RowTimesColumn(a: seq<real>, b: seq<real>, rows: nat, cols: nat, inner: nat,
                          r: nat, q: nat, k: nat): real
    requires |a| == rows * inner && |b| == inner * cols
    requires r < rows && q < cols && k <= inner
  {
    if k == 0 then 0.0
    else RowTimesColumn(a, b, rows, cols, inner, r, q, k - 1) + Term(a, b, rows, cols, inner, r, q, k - 1)
  }

  /** `MatrixMultiplyFast(a, b, rows, cols, inner)`: the row-major
      `rows x cols` product. */
  function MatrixMultiply(a: seq<real>, b: seq<real>, rows: nat, cols: nat, inner: nat): (m: seq<real>)
    requires |a| == rows * inner && |b| == inner * cols
    ensures |m| == rows * cols
  {
    Flatten(seq(rows, r requires 0 <= r < rows =>
              seq(cols, q requires 0 <= q < cols => RowTimesColumn(a, b, rows, cols, inner, r, q, inner))),
            cols)
  }

  lemma Im2ColAt(image: seq<real>, g: Geometry, r: nat, q: nat)
    requires g.Supported() && |image| == g.ImageSize() && r < g.Taps() && q < g.Positions()
    ensures r * g.Positions() + q < |Im2Col(image, g)|
    ensures Im2Col(image, g)[r * g.Positions() + q] == ColumnEntry(image, g, r, q)
  {
    FlattenAt(seq(g.Taps(), r requires 0 <= r < g.Taps() =>
                seq(g.Positions(), q requires 0 <= q < g.Positions() => ColumnEntry(image, g, r, q))),
              g.Positions(), r, q);
  }

  lemma MatrixMultiplyAt(a: seq<real>, b: seq<real>, rows: nat, cols: nat, inner: nat, r: nat, q: nat)
    requires |a| == rows * inner && |b| == inner * cols && r < rows && q < cols
    ensures r * cols + q < |MatrixMultiply(a, b, rows, cols, inner)|
    ensures MatrixMultiply(a, b, rows, cols, inner)[r * cols + q] == RowTimesColumn(a, b, rows, cols, inner, r, q, inner)
  {
    FlattenAt(seq(rows, r requires 0 <= r < rows =>
                seq(cols, q requires 0 <= q < cols => RowTimesColumn(a, b, rows, cols, inner, r, q, inner))),
              cols, r, q);
  }

  // ----- the evaluation, as values -----

  /** The checks before any arithmetic: the channel check the source makes,
      then the geometry its size formula silently needs.  A geometry that
      passes describes the operands and is supported. */
  function Check(input: TensorValue, weights: TensorValue, stride: nat, padding: nat): (r: Result<Geometry>)
    ensures r.Ok? <==> input.shape[1] == weights.shape[1] && GeometryOf(input, weights, stride, padding).Supported()
    ensures r.Ok? ==> Fits(input, weights, r.value) && r.value.stride == stride && r.value.padding == padding
  {
    var g := GeometryOf(input, weights, stride, padding);
    if input.shape[1] != weights.shape[1] then Err(KernelChannelsMismatch)
    else if !g.Supported() then Err(UnsupportedGeometry)
    else Ok(g)
  }

  /** `g` describes convolving `input` with `weights` and passed the checks. */
  predicate Fits(input: TensorValue, weights: TensorValue, g: Geometry)
  {
    g == GeometryOf(input, weights, g.stride, g.padding) && input.shape[1] == weights.shape[1] && g.Supported()
  }

  function OutputShape(batchSize: nat, g: Geometry): (s: seq<nat>)
    requires g.Supported()
    ensures |s| == 4
  {
    [batchSize, g.outChannels, g.OutHeight(), g.OutWidth()]
  }

  /** Elements of one output batch. */
  function BlockSize(g: Geometry): (b: nat)
    requires g.Supported()
    ensures b == g.outChannels * g.Positions()
  {
    g.outChannels * g.OutHeight() * g.OutWidth()
  }

  /** Batch `n` of the input, flattened: the `n`-th run of `C * H * W`
      elements of the buffer. */
  function InputSlice(input: TensorValue, n: nat): (s: seq<real>)
    requires n < input.shape[0]
    ensures |s| == input.shape[1] * input.shape[2] * input.shape[3]
  {
    BatchInBuffer(input.shape, n);
    BatchStride(input.shape, n);
    input.data[Offset(input.shape, n, 0, 0, 0)..Offset(input.shape, n + 1, 0, 0, 0)]
  }

  lemma KernelIsMatrix(weights: TensorValue, g: Geometry)
    requires g.channels == weights.shape[1] && g.outChannels == weights.shape[0]
    requires g.kernelHeight == weights.shape[2] && g.kernelWidth == weights.shape[3]
    ensures |weights.data| == g.outChannels * g.Taps()
  {
    Product4(weights.shape);
  }

  /** Output batch `n`: the flattened kernel times the column matrix of
      input batch `n`, an `OC x (OH * OW)` matrix. */
  function BatchOutput(input: TensorValue, weights: TensorValue, g: Geometry, n: nat): (block: seq<real>)
    requires Fits(input, weights, g) && n < input.shape[0]
    ensures |block| == BlockSize(g)
  {
    KernelIsMatrix(weights, g);
    MatrixMultiply(weights.data, Im2Col(InputSlice(input, n), g), g.outChannels, g.Positions(), g.Taps())
  }

  /** The output buffer after the first `n` batches: their blocks in order. */
  function Batches(input: TensorValue, weights: TensorValue, g: Geometry, n: nat): (out: seq<real>)
    requires Fits(input, weights, g) && n <= input.shape[0]
    ensures |out| == n * BlockSize(g)
  {
    if n == 0 then []
    else
      assert n * BlockSize(g) == (n - 1) * BlockSize(g) + BlockSize(g);
      Batches(input, weights, g, n - 1) + BatchOutput(input, weights, g, n - 1)
  }

  lemma OutputSize(batchSize: nat, g: Geometry)
    requires g.Supported()
    ensures Product(OutputShape(batchSize, g)) == batchSize * BlockSize(g)
    ensures batchSize * g.outChannels * g.OutHeight() * g.OutWidth() == batchSize * BlockSize(g)
  {
    Product4(OutputShape(batchSize, g));
  }

  /** `ConvolOperation::evaluate` on evaluated operands: the channel error
      exactly when the channels differ, the geometry error exactly when the
      channels agree but the stride is zero or the kernel overhangs the
      padded input, and otherwise an
      `(N, OC, (H + 2p - KH) / s + 1, (W + 2p - KW) / s + 1)` output. */
  function Convolve(input: TensorValue, weights: TensorValue, stride: nat, padding: nat): (r: Result<TensorValue>)
    ensures r == Err(KernelChannelsMismatch) <==> input.shape[1] != weights.shape[1]
    ensures r == Err(UnsupportedGeometry)
            <==> input.shape[1] == weights.shape[1]
                 && (stride == 0 || weights.shape[2] > input.shape[2] + 2 * padding
                     || weights.shape[3] > input.shape[3] + 2 * padding)
    ensures r.Ok? ==>
              stride > 0
              && r.value.shape
                 == [input.shape[0], weights.shape[0],
                     (input.shape[2] + 2 * padding - weights.shape[2]) / stride + 1,
                     (input.shape[3] + 2 * padding - weights.shape[3]) / stride + 1]
  {
    match Check(input, weights, stride, padding)
    case Err(e) => Err(e)
    case Ok(g) =>
      OutputSize(input.shape[0], g);
      var out: TensorValue := RawTensor(OutputShape(input.shape[0], g), Batches(input, weights, g, input.shape[0]));
      Ok(out)
  }

  // ----- the evaluation, step by step -----

  /** The per-batch input flattening: `input_data[c * H * W + h * W + w] =
      input.at(batch, c, h, w)` fills the buffer with exactly the batch's run
      of the input's data. */
  method FlattenInput(input: TensorValue, batch: nat) returns (inputData: seq<real>)
    requires batch < input.shape[0]
    ensures inputData == InputSlice(input, batch)
  {
    var s := input.shape;
    var inChannels, inHeight, inWidth := s[1], s[2], s[3];
    var buffer := new real[inChannels * inHeight * inWidth];
    ghost var base := Offset(s, batch, 0, 0, 0);
    ghost var slice := InputSlice(input, batch);
    ghost var p: nat := 0;
    var c: nat := 0;
    while c < inChannels
      invariant c <= inChannels && p == Offset(s, 0, c, 0, 0) && p <= buffer.Length
      invariant forall i :: 0 <= i < p ==> buffer[i] == slice[i]
    {
      var h: nat := 0;
      while h < inHeight
        invariant h <= inHeight && p == Offset(s, 0, c, h, 0) && p <= buffer.Length
        invariant forall i :: 0 <= i < p ==> buffer[i] == slice[i]
      {
        var w: nat := 0;
        while w < inWidth
          invariant w <= inWidth && p == Offset(s, 0, c, h, w) && p <= buffer.Length
          invariant forall i :: 0 <= i < p ==> buffer[i] == slice[i]
        {
          InputSliceAt(input, batch, c, h, w);
          var index := Offset(s, 0, c, h, w);
          buffer[index] := At(input, batch, c, h, w);
          p := p + 1;
          w := w + 1;
        }
        OffsetCarry(s, 0, c, h);
        h := h + 1;
      }
      OffsetCarry(s, 0, c, h);
      c := c + 1;
    }
    OffsetCarry(s, 0, c, 0);
    inputData := buffer[..];
  }

  /** Element `(batch, c, h, w)` of the input sits at the source's per-batch
      index `c * H * W + h * W + w` of the flattened batch. */
  lemma InputSliceAt(input: TensorValue, batch: nat, c: nat, h: nat, w: nat)
    requires InBounds(input.shape, batch, c, h, w)
    ensures Offset(input.shape, 0, c, h, w) < |InputSlice(input, batch)|
    ensures InputSlice(input, batch)[Offset(input.shape, 0, c, h, w)] == At(input, batch, c, h, w)
  {
    var s := input.shape;
    OffsetInBatch(s, c, h, w);
    BatchStride(s, batch);
    BatchInBuffer(s, batch);
    var base, o := Offset(s, batch, 0, 0, 0), Offset(s, 0, c, h, w);
    assert Offset(s, batch, c, h, w) == base + o;
  }

  /** The kernel flattening: `weight_matrix[oc * (C * KH * KW) + ic * (KH * KW)
      + kh * KW + kw] = weights.at(oc, ic, kh, kw)` writes every slot once and
      reproduces the kernel's own buffer, an `OC x (C * KH * KW)` matrix. */
  method FlattenWeights(weights: TensorValue) returns (weightMatrix: seq<real>)
    ensures weightMatrix == weights.data
  {
    var s := weights.shape;
    var outChannels, inChannels, kernelHeight, kernelWidth := s[0], s[1], s[2], s[3];
    var buffer := new real[outChannels * kernelHeight * kernelWidth * inChannels];
    KernelBufferSize(s);
    ghost var p: nat := 0;
    var oc: nat := 0;
    while oc < outChannels
      invariant oc <= outChannels && p == Offset(s, oc, 0, 0, 0) && p <= buffer.Length
      invariant forall i :: 0 <= i < p ==> buffer[i] == weights.data[i]
    {
      var ic: nat := 0;
      while ic < inChannels
        invariant ic <= inChannels && p == Offset(s, oc, ic, 0, 0) && p <= buffer.Length
        invariant forall i :: 0 <= i < p ==> buffer[i] == weights.data[i]
      {
        var kh: nat := 0;
        while kh < kernelHeight
          invariant kh <= kernelHeight && p == Offset(s, oc, ic, kh, 0) && p <= buffer.Length
          invariant forall i :: 0 <= i < p ==> buffer[i] == weights.data[i]
        {
          var kw: nat := 0;
          while kw < kernelWidth
            invariant kw <= kernelWidth && p == Offset(s, oc, ic, kh, kw) && p <= buffer.Length
            invariant forall i :: 0 <= i < p ==> buffer[i] == weights.data[i]
          {
            var weightIndex := Offset(s, oc, ic, kh, kw);
            buffer[weightIndex] := At(weights, oc, ic, kh, kw);
            p := p + 1;
            kw := kw + 1;
          }
          OffsetCarry(s, oc, ic, kh);
          kh := kh + 1;
        }
        OffsetCarry(s, oc, ic, kh);
        ic := ic + 1;
      }
      OffsetCarry(s, oc, ic, 0);
      oc := oc + 1;
    }
    OffsetEnd(s);
    weightMatrix := buffer[..];
  }

  /** The source sizes the weight matrix as `OC * KH * KW * C`. */
  lemma KernelBufferSize(s: seq<nat>)
    requires |s| == 4
    ensures s[0] * s[2] * s[3] * s[1] == Product(s)
  {
    Product4(s);
    assert s[0] * s[2] * s[3] * s[1] == s[0] * s[1] * s[2] * s[3];
  }

  /** `s` with the run starting at `base` replaced by `block`. */
  function Splice(s: seq<real>, base: nat, block: seq<real>): (r: seq<real>)
    requires base + |block| <= |s|
    ensures |r| == |s|
  {
    s[..base] + block + s[base + |block|..]
  }

  /** Inside the run `Splice` reads `block`, outside it the original. */
  lemma SpliceAt(s: seq<real>, base: nat, block: seq<real>, i: nat)
    requires base + |block| <= |s| && i < |s|
    ensures Splice(s, base, block)[i] == if base <= i < base + |block| then block[i - base] else s[i]
  {
  }

  /** The scatter into NCHW order: `output.at(batch, oc, oh, ow) =
      outputData[oc * OH * OW + oh * OW + ow]` replaces batch `batch` of the
      output by `outputData` and leaves every other batch as it was. */
  method ScatterOutput(output: Tensor, batch: nat, outputData: seq<real>)
    requires output.Valid() && batch < output.shape[0]
    requires |outputData| == output.shape[1] * output.shape[2] * output.shape[3]
    modifies output`data
    ensures output.Valid()
    ensures Offset(output.shape, batch, 0, 0, 0) + |outputData| <= |old(output.data)|
    ensures output.data == Splice(old(output.data), Offset(output.shape, batch, 0, 0, 0), outputData)
  {
    var s := output.shape;
    var outChannels, outHeight, outWidth := s[1], s[2], s[3];
    ghost var base := Offset(s, batch, 0, 0, 0);
    BatchInBuffer(s, batch);
    BatchStride(s, batch);
    ghost var p: nat := 0;
    var oc: nat := 0;
    while oc < outChannels
      invariant output.Valid() && output.shape == s
      invariant oc <= outChannels && p == Offset(s, 0, oc, 0, 0) && p <= |outputData|
      invariant output.data == Splice(old(output.data), base, outputData[..p])
    {
      var oh: nat := 0;
      while oh < outHeight
        invariant output.Valid() && output.shape == s
        invariant oh <= outHeight && p == Offset(s, 0, oc, oh, 0) && p <= |outputData|
        invariant output.data == Splice(old(output.data), base, outputData[..p])
      {
        var ow: nat := 0;
        while ow < outWidth
          invariant output.Valid() && output.shape == s
          invariant ow <= outWidth && p == Offset(s, 0, oc, oh, ow) && p <= |outputData|
          invariant output.data == Splice(old(output.data), base, outputData[..p])
        {
          OffsetInBatch(s, oc, oh, ow);
          var outIndex := Offset(s, 0, oc, oh, ow);
          assert Offset(s, batch, oc, oh, ow) == base + outIndex;
          output.SetAt(batch, oc, oh, ow, outputData[outIndex]);
          SpliceGrows(old(output.data), base, outputData, p);
          p := p + 1;
          ow := ow + 1;
        }
        OffsetCarry(s, 0, oc, oh);
        oh := oh + 1;
      }
      OffsetCarry(s, 0, oc, oh);
      oc := oc + 1;
    }
    OffsetCarry(s, 0, oc, 0);
    assert outputData[..p] == outputData;
  }

  /** Writing the next element of `block` extends the spliced run by one. */
  lemma SpliceGrows(s: seq<real>, base: nat, block: seq<real>, p: nat)
    requires p < |block| && base + |block| <= |s|
    ensures Splice(s, base, block[..p])[base + p := block[p]] == Splice(s, base, block[..p + 1])
  {
    var lhs := Splice(s, base, block[..p])[base + p := block[p]];
    var rhs := Splice(s, base, block[..p + 1]);
    forall i | 0 <= i < |s|
      ensures lhs[i] == rhs[i]
    {
      SpliceAt(s, base, block[..p], i);
      SpliceAt(s, base, block[..p + 1], i);
    }
  }

  /** `performConvolutionIm2Col` for one batch: flatten the batch and the
      kernel, form the column matrix, multiply, and scatter the product into
      batch `batch` of the output; the other batches keep their contents. */
  method PerformConvolutionIm2Col(input: TensorValue, weights: TensorValue, output: Tensor, batch: nat, g: Geometry)
    requires Fits(input, weights, g) && batch < input.shape[0]
    requires output.Valid() && output.shape == OutputShape(input.shape[0], g)
    modifies output`data
    ensures output.Valid() && batch * BlockSize(g) + BlockSize(g) <= |old(output.data)|
    ensures output.data == Splice(old(output.data), batch * BlockSize(g), BatchOutput(input, weights, g, batch))
  {
    var outHeight := (g.height + 2 * g.padding - g.kernelHeight) / g.stride + 1;
    var outWidth := (g.width + 2 * g.padding - g.kernelWidth) / g.stride + 1;
    var inputData := FlattenInput(input, batch);
    var im2colData := Im2Col(inputData, g);
    var weightMatrix := FlattenWeights(weights);
    KernelIsMatrix(weights, g);
    var inner := g.kernelHeight * g.kernelWidth * g.channels;
    TapCount(g);
    var outputData := MatrixMultiply(weightMatrix, im2colData, g.outChannels, outHeight * outWidth, inner);
    assert outputData == BatchOutput(input, weights, g, batch);
    ScatterOutput(output, batch, outputData);
  }

  /** The source sizes the column matrix's rows as `KH * KW * C`. */
  lemma TapCount(g: Geometry)
    ensures g.kernelHeight * g.kernelWidth * g.channels == g.Taps()
  {
  }


  /** The output buffer after the first `n` batches of the source's loop:
      those batches' blocks, then the zeros the output started with. */
  function Progress(input: TensorValue, weights: TensorValue, g: Geometry, n: nat): (out: seq<real>)
    requires Fits(input, weights, g) && n <= input.shape[0]
    ensures |out| == input.shape[0] * BlockSize(g)
  {
    var rest := input.shape[0] - n;
    assert input.shape[0] * BlockSize(g) == n * BlockSize(g) + rest * BlockSize(g);
    Batches(input, weights, g, n) + Zeros(rest * BlockSize(g))
  }

  /** Filling batch `n` of the buffer advances it from `n` to `n + 1`
      batches. */
  lemma FillNextBatch(input: TensorValue, weights: TensorValue, g: Geometry, n: nat)
    requires Fits(input, weights, g) && n < input.shape[0]
    ensures n * BlockSize(g) + BlockSize(g) <= |Progress(input, weights, g, n)|
    ensures Splice(Progress(input, weights, g, n), n * BlockSize(g), BatchOutput(input, weights, g, n))
         == Progress(input, weights, g, n + 1)
  {
    var blk := BlockSize(g);
    var rest := input.shape[0] - (n + 1);
    assert (rest + 1) * blk == rest * blk + blk;
    assert (n + 1) * blk == n * blk + blk;
    var lhs := Splice(Progress(input, weights, g, n), n * blk, BatchOutput(input, weights, g, n));
    var rhs := Progress(input, weights, g, n + 1);
    forall i | 0 <= i < |lhs|
      ensures lhs[i] == rhs[i]
    {
      SpliceAt(Progress(input, weights, g, n), n * blk, BatchOutput(input, weights, g, n), i);
    }
  }

  /** Before the first batch the buffer is the zero-filled output; after
      the last it holds every batch. */
  lemma ProgressEnds(input: TensorValue, weights: TensorValue, g: Geometry)
    requires Fits(input, weights, g)
    ensures Progress(input, weights, g, 0) == Zeros(input.shape[0] * BlockSize(g))
    ensures Progress(input, weights, g, input.shape[0]) == Batches(input, weights, g, input.shape[0])
  {
    assert Zeros(0) == [];
  }

  /** `ConvolOperation::evaluate` on evaluated operands: the channel check,
      the size formula, a zero-filled output, and one im2col pass per batch. */
  method ConvolKernel(input: TensorValue, weights: TensorValue, stride: nat, padding: nat) returns (r: Result<TensorValue>)
    ensures r == Convolve(input, weights, stride, padding)
  {
    var batchSize, inChannels, inHeight, inWidth := input.shape[0], input.shape[1], input.shape[2], input.shape[3];
    var kernelOutChannels, kernelInChannels, kernelHeight, kernelWidth := weights.shape[0], weights.shape[1], weights.shape[2], weights.shape[3];
    if inChannels != kernelInChannels {
      return Err(KernelChannelsMismatch);
    }
    if stride == 0 || kernelHeight > inHeight + 2 * padding || kernelWidth > inWidth + 2 * padding {
      return Err(UnsupportedGeometry);
    }
    var outHeight := (inHeight + 2 * padding - kernelHeight) / stride + 1;
    var outWidth := (inWidth + 2 * padding - kernelWidth) / stride + 1;
    var g := Geometry(inChannels, inHeight, inWidth, kernelOutChannels, kernelHeight, kernelWidth, stride, padding);
    assert Check(input, weights, stride, padding) == Ok(g);
    assert outHeight == g.OutHeight() && outWidth == g.OutWidth();
    var outTensor := new Tensor.FromDims(batchSize, kernelOutChannels, outHeight, outWidth);
    OutputSize(batchSize, g);
    ProgressEnds(input, weights, g);
    ConvolveBatches(input, weights, g, outTensor);
    r := Ok(outTensor.Value());
  }

  /** The batch loop of `ConvolOperation::evaluate`: one im2col pass per
      batch turns the zero-filled output into every batch's block. */
  method ConvolveBatches(input: TensorValue, weights: TensorValue, g: Geometry, outTensor: Tensor)
    requires Fits(input, weights, g)
    requires outTensor.Valid() && outTensor.shape == OutputShape(input.shape[0], g)
    requires outTensor.data == Progress(input, weights, g, 0)
    modifies outTensor`data
    ensures outTensor.Valid() && outTensor.data == Progress(input, weights, g, input.shape[0])
  {
    var batch: nat := 0;
    while batch < input.shape[0]
      invariant batch <= input.shape[0]
      invariant outTensor.Valid() && outTensor.shape == OutputShape(input.shape[0], g)
      invariant outTensor.data == Progress(input, weights, g, batch)
    {
      ghost var before := outTensor.data;
      PerformConvolutionIm2Col(input, weights, outTensor, batch, g);
      FillNextBatch(input, weights, g, batch);
      assert outTensor.data == Splice(before, batch * BlockSize(g), BatchOutput(input, weights, g, batch));
      batch := batch + 1;
    }
  }

  // ----- what the pipeline computes: the direct convolution -----

  /** `(n, oc, oh, ow)` is a coordinate of the output. */
  predicate OutputSite(input: TensorValue, weights: TensorValue, g: Geometry, n: nat, oc: nat, oh: nat, ow: nat)
  {
    Fits(input, weights, g) && n < input.shape[0] && oc < g.outChannels && oh < g.OutHeight() && ow < g.OutWidth()
  }

  /** The input with `padding` zeros around every `H x W` plane. */
  function PaddedInput(input: TensorValue, n: nat, c: nat, y: int, x: int): real
    requires n < input.shape[0] && c < input.shape[1]
  {
    if 0 <= y < input.shape[2] && 0 <= x < input.shape[3] then At(input, n, c, y, x) else 0.0
  }

  /** Kernel tap `t`, that is `(ic, kh, kw) = Unflatten(TapShape(), t)`, of
      output channel `oc` applied at `(oh, ow)`: the weight times the padded
      input pixel `(oh * s + kh - p, ow * s + kw - p)` of channel `ic`. */
  function TapProduct(input: TensorValue, weights: TensorValue, g: Geometry, n: nat, oc: nat, oh: nat, ow: nat, t: nat): real
    requires OutputSite(input, weights, g, n, oc, oh, ow) && t < g.Taps()
  {
    var tap := Unflatten(g.TapShape(), t);
    At(weights, oc, tap.1, tap.2, tap.3)
      * PaddedInput(input, n, tap.1, oh * g.stride + tap.2 - g.padding, ow * g.stride + tap.3 - g.padding)
  }

  /** `sum_{t < k} s[t]`. */
  function PrefixSum(s: seq<real>, k: nat): real
    requires k <= |s|
  {
    if k == 0 then 0.0 else PrefixSum(s, k - 1) + s[k - 1]
  }

  /** `out[n, oc, oh, ow] = sum over the taps (ic, kh, kw) of
      w[oc, ic, kh, kw] * padded_in[n, ic, oh * s + kh - p, ow * s + kw - p]`,
      computed straight from the two tensors. */
  function DirectConvolution(input: TensorValue, weights: TensorValue, g: Geometry, n: nat, oc: nat, oh: nat, ow: nat): real
    requires OutputSite(input, weights, g, n, oc, oh, ow)
  {
    PrefixSum(seq(g.Taps(), t requires 0 <= t < g.Taps() => TapProduct(input, weights, g, n, oc, oh, ow, t)), g.Taps())
  }

  /** A row-times-column sum whose terms are those of `s` is a prefix sum of `s`. */
  lemma {:induction false} RowTimesColumnIsSum(a: seq<real>, b: seq<real>, rows: nat, cols: nat, inner: nat,
                                               r: nat, q: nat, s: seq<real>, k: nat)
    requires |a| == rows * inner && |b| == inner * cols && r < rows && q < cols
    requires |s| == inner && k <= inner
    requires forall t :: 0 <= t < inner ==> Term(a, b, rows, cols, inner, r, q, t) == s[t]
    ensures RowTimesColumn(a, b, rows, cols, inner, r, q, k) == PrefixSum(s, k)
  {
    if k > 0 {
      RowTimesColumnIsSum(a, b, rows, cols, inner, r, q, s, k - 1);
    }
  }

  /** Output position `(oh, ow)` is column `oh * OW + ow`. */
  lemma PositionIndex(g: Geometry, oh: nat, ow: nat, q: nat)
    requires g.Supported() && oh < g.OutHeight() && ow < g.OutWidth() && q == oh * g.OutWidth() + ow
    ensures q < g.Positions() && q / g.OutWidth() == oh && q % g.OutWidth() == ow
  {
    DigitsBound(oh, g.OutHeight(), ow, g.OutWidth());
    DivModOf(q, g.OutWidth(), oh, ow);
  }

  /** Row `oc`, column `t` of the flattened kernel is the weight of tap `t`. */
  lemma WeightEntry(weights: TensorValue, g: Geometry, oc: nat, t: nat)
    requires g.channels == weights.shape[1] && g.outChannels == weights.shape[0]
    requires g.kernelHeight == weights.shape[2] && g.kernelWidth == weights.shape[3]
    requires oc < g.outChannels && t < g.Taps()
    ensures oc * g.Taps() + t < |weights.data|
    ensures var tap := Unflatten(g.TapShape(), t);
            weights.data[oc * g.Taps() + t] == At(weights, oc, tap.1, tap.2, tap.3)
  {
    var tap := Unflatten(g.TapShape(), t);
    assert oc * g.Taps() + t == Offset(weights.shape, oc, tap.1, tap.2, tap.3);
  }

  /** The padded pixel of input batch `n`, read from its flattened buffer. */
  lemma PixelOfSlice(input: TensorValue, g: Geometry, n: nat, c: nat, y: int, x: int)
    requires g.channels == input.shape[1] && g.height == input.shape[2] && g.width == input.shape[3]
    requires n < input.shape[0] && c < g.channels
    ensures Pixel(InputSlice(input, n), g, c, y, x) == PaddedInput(input, n, c, y, x)
  {
    if 0 <= y < g.height && 0 <= x < g.width {
      InputSliceAt(input, n, c, y, x);
      assert (c * g.height + y) * g.width + x == Offset(input.shape, 0, c, y, x);
    }
  }

  /** Row `t`, column `oh * OW + ow` of the column matrix of batch `n` is the
      padded pixel under tap `t` at position `(oh, ow)`. */
  lemma ColumnMatrixEntry(input: TensorValue, weights: TensorValue, g: Geometry, n: nat, oh: nat, ow: nat, t: nat)
    requires Fits(input, weights, g) && n < input.shape[0] && oh < g.OutHeight() && ow < g.OutWidth() && t < g.Taps()
    ensures oh * g.OutWidth() + ow < g.Positions()
    ensures t * g.Positions() + (oh * g.OutWidth() + ow) < |Im2Col(InputSlice(input, n), g)|
    ensures var tap := Unflatten(g.TapShape(), t);
            Im2Col(InputSlice(input, n), g)[t * g.Positions() + (oh * g.OutWidth() + ow)]
            == PaddedInput(input, n, tap.1, oh * g.stride + tap.2 - g.padding, ow * g.stride + tap.3 - g.padding)
  {
    var tap := Unflatten(g.TapShape(), t);
    var q := oh * g.OutWidth() + ow;
    PositionIndex(g, oh, ow, q);
    Im2ColAt(InputSlice(input, n), g, t, q);
    PixelOfSlice(input, g, n, tap.1, oh * g.stride + tap.2 - g.padding, ow * g.stride + tap.3 - g.padding);
  }

  /** Term `t` of product entry `(oc, oh * OW + ow)` of batch `n` is the
      product of tap `t`. */
  lemma TapTerm(input: TensorValue, weights: TensorValue, g: Geometry, n: nat, oc: nat, oh: nat, ow: nat, t: nat)
    requires OutputSite(input, weights, g, n, oc, oh, ow) && t < g.Taps()
    ensures |weights.data| == g.outChannels * g.Taps() && oh * g.OutWidth() + ow < g.Positions()
    ensures Term(weights.data, Im2Col(InputSlice(input, n), g), g.outChannels, g.Positions(), g.Taps(),
                 oc, oh * g.OutWidth() + ow, t)
         == TapProduct(input, weights, g, n, oc, oh, ow, t)
  {
    KernelIsMatrix(weights, g);
    WeightEntry(weights, g, oc, t);
    ColumnMatrixEntry(input, weights, g, n, oh, ow, t);
  }

  /** Entry `(oc, oh * OW + ow)` of the product for batch `n` is the direct
      convolution at `(n, oc, oh, ow)`. */
  lemma BatchOutputIsDirect(input: TensorValue, weights: TensorValue, g: Geometry, n: nat, oc: nat, oh: nat, ow: nat)
    requires OutputSite(input, weights, g, n, oc, oh, ow)
    ensures oc * g.Positions() + (oh * g.OutWidth() + ow) < BlockSize(g)
    ensures BatchOutput(input, weights, g, n)[oc * g.Positions() + (oh * g.OutWidth() + ow)]
         == DirectConvolution(input, weights, g, n, oc, oh, ow)
  {
    KernelIsMatrix(weights, g);
    var q := oh * g.OutWidth() + ow;
    PositionIndex(g, oh, ow, q);
    var a, b := weights.data, Im2Col(InputSlice(input, n), g);
    var terms := seq(g.Taps(), t requires 0 <= t < g.Taps() => TapProduct(input, weights, g, n, oc, oh, ow, t));
    forall t | 0 <= t < g.Taps()
      ensures Term(a, b, g.outChannels, g.Positions(), g.Taps(), oc, q, t) == terms[t]
    {
      TapTerm(input, weights, g, n, oc, oh, ow, t);
    }
    RowTimesColumnIsSum(a, b, g.outChannels, g.Positions(), g.Taps(), oc, q, terms, g.Taps());
    MatrixMultiplyAt(a, b, g.outChannels, g.Positions(), g.Taps(), oc, q);
  }

  /** Block `n` of the first `m` batches sits at `n * BlockSize(g)`. */
  lemma {:induction false} BatchesAt(input: TensorValue, weights: TensorValue, g: Geometry, m: nat, n: nat, j: nat)
    requires Fits(input, weights, g) && n < m <= input.shape[0] && j < BlockSize(g)
    ensures n * BlockSize(g) + j < |Batches(input, weights, g, m)|
    ensures Batches(input, weights, g, m)[n * BlockSize(g) + j] == BatchOutput(input, weights, g, n)[j]
  {
    MulMono(n + 1, m, BlockSize(g));
    assert (n + 1) * BlockSize(g) == n * BlockSize(g) + BlockSize(g);
    if n < m - 1 {
      BatchesAt(input, weights, g, m - 1, n, j);
      MulMono(n + 1, m - 1, BlockSize(g));
    }
  }

  /** Element `(n, oc, oh, ow)` of a successful convolution is the direct
      convolution there: the im2col pipeline computes the convolution. */
  lemma ConvolveAt(input: TensorValue, weights: TensorValue, stride: nat, padding: nat, n: nat, oc: nat, oh: nat, ow: nat)
    requires Convolve(input, weights, stride, padding).Ok?
    requires InBounds(Convolve(input, weights, stride, padding).value.shape, n, oc, oh, ow)
    ensures OutputSite(input, weights, GeometryOf(input, weights, stride, padding), n, oc, oh, ow)
    ensures At(Convolve(input, weights, stride, padding).value, n, oc, oh, ow)
         == DirectConvolution(input, weights, GeometryOf(input, weights, stride, padding), n, oc, oh, ow)
  {
    var g := GeometryOf(input, weights, stride, padding);
    assert Check(input, weights, stride, padding) == Ok(g);
    var out := Convolve(input, weights, stride, padding).value;
    assert out.shape == OutputShape(input.shape[0], g) && out.data == Batches(input, weights, g, input.shape[0]);
    MulMono(0, oc, g.Positions());
    MulMono(0, oh, g.OutWidth());
    var j := oc * g.Positions() + (oh * g.OutWidth() + ow);
    BatchOutputIsDirect(input, weights, g, n, oc, oh, ow);
    BatchesAt(input, weights, g, input.shape[0], n, j);
    assert Offset(out.shape, n, oc, oh, ow) == n * BlockSize(g) + j;
  }

  /** The sizes of the worked example: a `(1, 3, 4, 4)` input and a
      `(2, 3, 3, 3)` kernel at stride 1 without padding give `(1, 2, 2, 2)`. */
  lemma ConvolveExampleShape(input: TensorValue, weights: TensorValue)
    requires input.shape == [1, 3, 4, 4] && weights.shape == [2, 3, 3, 3]
    ensures Convolve(input, weights, 1, 0).Ok?
    ensures Convolve(input, weights, 1, 0).value.shape == [1, 2, 2, 2]
  {
  }
}
