/** `MatMulOperation::evaluate`: a batched matrix product.  For every
    (batch, channel) pair the `H x K` slice of the left tensor is multiplied
    by the `K x W` slice of the right one. */
module MatMul {
  import opened Tensors
  import opened Results

  /** The dimension checks, in the order the source makes them: they pass
      exactly when the operands are conformable. */
  function Check(a: TensorValue, b: TensorValue): (r: Result<()>)
    ensures r.Ok? <==> Conformable(a, b)
    ensures r.Err? ==> r.error in {BatchSizeMismatch, ChannelsMismatch, IncompatibleDimensions}
  {
    if a.shape[0] != b.shape[0] then Err(BatchSizeMismatch)
    else if a.shape[1] != b.shape[1] then Err(ChannelsMismatch)
    else if a.shape[3] != b.shape[2] then Err(IncompatibleDimensions)
    else Ok(())
  }

  predicate Conformable(a: TensorValue, b: TensorValue)
  {
    a.shape[0] == b.shape[0] && a.shape[1] == b.shape[1] && a.shape[3] == b.shape[2]
  }

  /** `(B, C, lhs_height, rhs_width)`. */
  function ResultShape(a: TensorValue, b: TensorValue): seq<nat>
  {
    [a.shape[0], a.shape[1], a.shape[2], b.shape[3]]
  }

  /** `sum_{k' < k} a[n, c, i, k'] * b[n, c, k', j]`, accumulated in the
      order the innermost loop adds the terms. */
  function Dot(a: TensorValue, b: TensorValue, n: nat, c: nat, i: nat, j: nat, k: nat): real
    requires Conformable(a, b)
    requires n < a.shape[0] && c < a.shape[1] && i < a.shape[2] && j < b.shape[3]
    requires k <= a.shape[3]
  {
    if k == 0 then 0.0
    else Dot(a, b, n, c, i, j, k - 1) + At(a, n, c, i, k - 1) * At(b, n, c, k - 1, j)
  }

  /** The product tensor: entry `(n, c, i, j)` is the full dot product. */
  function Product4D(a: TensorValue, b: TensorValue): (r: TensorValue)
    requires Conformable(a, b)
    ensures r.shape == ResultShape(a, b)
  {
    var s := ResultShape(a, b);
    RawTensor(s, seq(Product(s), f requires 0 <= f < Product(s) =>
      var t := Unflatten(s, f); Dot(a, b, t.0, t.1, t.2, t.3, a.shape[3])))
  }

  /** What `evaluate` yields once both operands are tensors: the product
      exactly when batch, channel and inner sizes agree, and otherwise the
      error of the first check that fails, in source order. */
  function MatMul(a: TensorValue, b: TensorValue): (r: Result<TensorValue>)
    ensures r.Ok? <==> Conformable(a, b)
    ensures r.Ok? ==> r.value.shape == ResultShape(a, b) && r.value == Product4D(a, b)
    ensures a.shape[0] != b.shape[0] ==> r == Err(BatchSizeMismatch)
    ensures a.shape[0] == b.shape[0] && a.shape[1] != b.shape[1] ==> r == Err(ChannelsMismatch)
    ensures a.shape[0] == b.shape[0] && a.shape[1] == b.shape[1] && a.shape[3] != b.shape[2]
            ==> r == Err(IncompatibleDimensions)
  {
    if Check(a, b).Err? then Err(Check(a, b).error) else Ok(Product4D(a, b))
  }

  /** Reading the product at a coordinate gives the dot product of the
      matching row and column of that (batch, channel) slice. */
  lemma Product4DAt(a: TensorValue, b: TensorValue, n: nat, c: nat, i: nat, j: nat)
    requires Conformable(a, b) && InBounds(ResultShape(a, b), n, c, i, j)
    ensures At(Product4D(a, b), n, c, i, j) == Dot(a, b, n, c, i, j, a.shape[3])
  {
    UnflattenOffset(ResultShape(a, b), n, c, i, j);
  }

  /** Two pairs of operands that agree on the `(n, c)` slices give the same
      dot products there. */
  lemma {:induction false} DotSliceLocal(a: TensorValue, b: TensorValue, a': TensorValue, b': TensorValue,
                                          n: nat, c: nat, i: nat, j: nat, k: nat)
    requires Conformable(a, b) && Conformable(a', b') && a.shape == a'.shape && b.shape == b'.shape
    requires n < a.shape[0] && c < a.shape[1] && i < a.shape[2] && j < b.shape[3] && k <= a.shape[3]
    requires forall i', k' :: i' < a.shape[2] && k' < a.shape[3] ==> At(a, n, c, i', k') == At(a', n, c, i', k')
    requires forall k', j' :: k' < b.shape[2] && j' < b.shape[3] ==> At(b, n, c, k', j') == At(b', n, c, k', j')
    ensures Dot(a, b, n, c, i, j, k) == Dot(a', b', n, c, i, j, k)
  {
    if k > 0 {
      DotSliceLocal(a, b, a', b', n, c, i, j, k - 1);
    }
  }

  /** Each output slice depends only on the same slice of each input. */
  lemma SliceLocal(a: TensorValue, b: TensorValue, a': TensorValue, b': TensorValue,
                   n: nat, c: nat, i: nat, j: nat)
    requires Conformable(a, b) && a.shape == a'.shape && b.shape == b'.shape
    requires InBounds(ResultShape(a, b), n, c, i, j)
    requires forall i', k' :: i' < a.shape[2] && k' < a.shape[3] ==> At(a, n, c, i', k') == At(a', n, c, i', k')
    requires forall k', j' :: k' < b.shape[2] && j' < b.shape[3] ==> At(b, n, c, k', j') == At(b', n, c, k', j')
    ensures At(Product4D(a, b), n, c, i, j) == At(Product4D(a', b'), n, c, i, j)
  {
    Product4DAt(a, b, n, c, i, j);
    Product4DAt(a', b', n, c, i, j);
    DotSliceLocal(a, b, a', b', n, c, i, j, a.shape[3]);
  }

  /** Every `(n, c)` slice of `b` is the `K x K` identity matrix. */
  ghost predicate IdentitySlices(b: TensorValue)
  {
    b.shape[2] == b.shape[3] &&
    forall n, c, k, j :: InBounds(b.shape, n, c, k, j) ==> At(b, n, c, k, j) == if k == j then 1.0 else 0.0
  }

  lemma {:induction false} DotIdentity(a: TensorValue, b: TensorValue, n: nat, c: nat, i: nat, j: nat, k: nat)
    requires Conformable(a, b) && IdentitySlices(b)
    requires n < a.shape[0] && c < a.shape[1] && i < a.shape[2] && j < b.shape[3] && k <= a.shape[3]
    ensures Dot(a, b, n, c, i, j, k) == if j < k then At(a, n, c, i, j) else 0.0
  {
    if k > 0 {
      DotIdentity(a, b, n, c, i, j, k - 1);
    }
  }

  /** Multiplying by identity slices returns the left operand. */
  lemma MultiplyByIdentity(a: TensorValue, b: TensorValue)
    requires Conformable(a, b) && IdentitySlices(b)
    ensures MatMul(a, b) == Ok(a)
  {
    var r := Product4D(a, b);
    forall n: nat, c: nat, i: nat, j: nat | InBounds(r.shape, n, c, i, j)
      ensures At(r, n, c, i, j) == At(a, n, c, i, j)
    {
      Product4DAt(a, b, n, c, i, j);
      DotIdentity(a, b, n, c, i, j, a.shape[3]);
    }
    EqualByCoordinates(r, a);
  }

  /** The first `p` elements of `t` agree with `spec`, the rest are still zero. */
  ghost predicate FilledUpTo(t: Tensor, spec: TensorValue, p: nat)
    reads t
  {
    t.Valid() && t.shape == spec.shape && p <= |t.data| &&
    (forall f :: 0 <= f < p ==> t.data[f] == spec.data[f]) &&
    (forall f :: p <= f < |t.data| ==> t.data[f] == 0.0)
  }

  /** The innermost loop: `result.at(b, c, i, j) += lhs.at(b, c, i, k) *
      rhs.at(b, c, k, j)` for `k` from 0 to the inner size, starting from 0. */
  method AccumulateEntry(lhs: TensorValue, rhs: TensorValue, result: Tensor, b: nat, c: nat, i: nat, j: nat)
    requires Conformable(lhs, rhs) && result.Valid() && result.shape == ResultShape(lhs, rhs)
    requires InBounds(result.shape, b, c, i, j) && result.At4(b, c, i, j) == 0.0
    modifies result`data
    ensures result.Valid() && Offset(result.shape, b, c, i, j) < |result.data|
    ensures result.data == old(result.data)[Offset(result.shape, b, c, i, j) := Dot(lhs, rhs, b, c, i, j, lhs.shape[3])]
  {
    ghost var o := Offset(result.shape, b, c, i, j);
    var k := 0;
    while k < lhs.shape[3]
      invariant k <= lhs.shape[3]
      invariant result.Valid()
      invariant result.data == old(result.data)[o := Dot(lhs, rhs, b, c, i, j, k)]
    {
      var cur := result.At4(b, c, i, j);
      assert cur == Dot(lhs, rhs, b, c, i, j, k);
      var x := At(lhs, b, c, i, k) * At(rhs, b, c, k, j);
      assert cur + x == Dot(lhs, rhs, b, c, i, j, k + 1);
      result.SetAt(b, c, i, j, cur + x);
      assert result.data == old(result.data)[o := Dot(lhs, rhs, b, c, i, j, k + 1)];
      k := k + 1;
    }
  }

  /** The evaluation: three dimension checks, a zero-filled result, then for
      every `(b, c, i, j)` the accumulation `result.at(b, c, i, j) += ...`
      over `k`. */
  method MatMulKernel(lhs: TensorValue, rhs: TensorValue) returns (r: Result<TensorValue>)
    ensures r == MatMul(lhs, rhs)
  {
    var lhsBatch, lhsChannels, lhsHeight, lhsWidth := lhs.shape[0], lhs.shape[1], lhs.shape[2], lhs.shape[3];
    var rhsBatch, rhsChannels, rhsHeight, rhsWidth := rhs.shape[0], rhs.shape[1], rhs.shape[2], rhs.shape[3];
    if lhsBatch != rhsBatch {
      return Err(BatchSizeMismatch);
    }
    if lhsChannels != rhsChannels {
      return Err(ChannelsMismatch);
    }
    if lhsWidth != rhsHeight {
      return Err(IncompatibleDimensions);
    }
    var result := new Tensor.FromShape([lhsBatch, lhsChannels, lhsHeight, rhsWidth], []);
    ghost var spec := Product4D(lhs, rhs);
    ghost var shape := result.shape;
    ghost var p: nat := 0;
    var b := 0;
    while b < lhsBatch
      invariant b <= lhsBatch
      invariant p == Offset(shape, b, 0, 0, 0)
      invariant FilledUpTo(result, spec, p)
    {
      var c := 0;
      while c < lhsChannels
        invariant c <= lhsChannels
        invariant p == Offset(shape, b, c, 0, 0)
        invariant FilledUpTo(result, spec, p)
      {
        var i := 0;
        while i < lhsHeight
          invariant i <= lhsHeight
          invariant p == Offset(shape, b, c, i, 0)
          invariant FilledUpTo(result, spec, p)
        {
          var j := 0;
          while j < rhsWidth
            invariant j <= rhsWidth
            invariant p == Offset(shape, b, c, i, j)
            invariant FilledUpTo(result, spec, p)
          {
            UnflattenOffset(shape, b, c, i, j);
            AccumulateEntry(lhs, rhs, result, b, c, i, j);
            p := p + 1;
            j := j + 1;
          }
          OffsetCarry(shape, b, c, i);
          i := i + 1;
        }
        OffsetCarry(shape, b, c, i);
        c := c + 1;
      }
      OffsetCarry(shape, b, c, 0);
      b := b + 1;
    }
    OffsetEnd(shape);
    assert result.data == spec.data;
    r := Ok(result.Value());
  }

  /** The `(batch, channel)` pairs the loop headers of the source actually
      visit: the channel loop tests and increments `b` instead of `c`, so
      the inner loop walks the batches with `c` stuck at 0 and the outer
      loop then exits. */
  method VisitedSlicesAsWritten(batchSize: nat) returns (visited: seq<(nat, nat)>)
    ensures visited == seq(batchSize, n => (n, 0))
  {
    visited := [];
    var b := 0;
    while b < batchSize
      invariant b == 0 || b == batchSize + 1
      invariant b == 0 ==> visited == []
      invariant b != 0 ==> visited == seq(batchSize, n => (n, 0))
    {
      var c := 0;
      while b < batchSize
        invariant b <= batchSize
        invariant visited == seq(b, n => (n, 0))
      {
        visited := visited + [(b, c)];
        b := b + 1;
      }
      b := b + 1;
    }
  }

  /** The pairs the loops are evidently meant to visit: every batch, and for
      each batch every channel. */
  function AllSlices(batchSize: nat, channels: nat): (pairs: seq<(nat, nat)>)
    ensures |pairs| == batchSize * channels
  {
    if batchSize == 0 then []
    else AllSlices(batchSize - 1, channels) + seq(channels, c => (batchSize - 1, c))
  }

  lemma {:induction false} AllSlicesCovers(batchSize: nat, channels: nat, n: nat, c: nat)
    requires n < batchSize && c < channels
    ensures (n, c) in AllSlices(batchSize, channels)
  {
    if n < batchSize - 1 {
      AllSlicesCovers(batchSize - 1, channels, n, c);
    } else {
      assert AllSlices(batchSize, channels)[|AllSlices(batchSize - 1, channels)| + c] == (n, c);
    }
  }

  /** With more than one channel the loop as written never reaches channel 1,
      so that slice of the result keeps its zero fill. */
  lemma AsWrittenSkipsChannels(batchSize: nat, channels: nat, visited: seq<(nat, nat)>)
    requires batchSize > 0 && channels > 1
    requires visited == seq(batchSize, n => (n, 0))
    ensures (0, 1) !in visited && (0, 1) in AllSlices(batchSize, channels)
  {
    AllSlicesCovers(batchSize, channels, 0, 1);
  }
}
