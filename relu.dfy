/** `ReLUOperation::evaluate`: a zero-filled tensor of the input's shape,
    then one flat loop writing `max(0, x)`. */
module Relu {
  import opened Tensors

  /** `std::max(0.0f, x)`. */
  function Max0(x: real): real
  {
    if 0.0 < x then x else 0.0
  }

  /** The value `ReLUOperation::evaluate` returns for `t`: the input's shape,
      and every element `x` kept if positive and replaced by 0 otherwise. */
  function Relu(t: TensorValue): (r: TensorValue)
    ensures r.shape == t.shape && |r.data| == |t.data|
    ensures forall i :: 0 <= i < |t.data| ==> r.data[i] == (if t.data[i] > 0.0 then t.data[i] else 0.0)
  {
    RawTensor(t.shape, seq(|t.data|, i requires 0 <= i < |t.data| => Max0(t.data[i])))
  }

  /** The kernel loop: `output.at(i) = max(0, input.at(i))` for every flat `i`. */
  method ReluKernel(input: TensorValue) returns (output: TensorValue)
    ensures output == Relu(input)
  {
    var out := new Tensor.FromShape(input.shape, []);
    var size := DimProduct(input.shape);
    var i := 0;
    while i < size
      invariant 0 <= i <= size == |input.data|
      invariant out.Valid() && out.shape == input.shape
      invariant forall j :: 0 <= j < i ==> out.data[j] == Max0(input.data[j])
    {
      out.SetFlat(i, Max0(input.data[i]));
      i := i + 1;
    }
    output := out.Value();
    assert output.data == Relu(input).data;
  }

  lemma ReluNonNegative(t: TensorValue)
    ensures forall i :: 0 <= i < |Relu(t).data| ==> Relu(t).data[i] >= 0.0
  {
  }

  /** Non-negative inputs pass through, negative inputs become zero. */
  lemma ReluKeepsOrZeroes(t: TensorValue, i: nat)
    requires i < |t.data|
    ensures t.data[i] >= 0.0 ==> Relu(t).data[i] == t.data[i]
    ensures t.data[i] < 0.0 ==> Relu(t).data[i] == 0.0
  {
  }

  /** An all-non-negative tensor is a fixed point; an all-negative one maps
      to zeros. */
  lemma ReluOfSigned(t: TensorValue)
    ensures (forall i :: 0 <= i < |t.data| ==> t.data[i] >= 0.0) ==> Relu(t) == t
    ensures (forall i :: 0 <= i < |t.data| ==> t.data[i] < 0.0) ==> Relu(t).data == Zeros(|t.data|)
  {
    if forall i :: 0 <= i < |t.data| ==> t.data[i] >= 0.0 {
      assert Relu(t).data == t.data;
    }
  }

  lemma ReluIdempotent(t: TensorValue)
    ensures Relu(Relu(t)) == Relu(t)
  {
    assert Relu(Relu(t)).data == Relu(t).data;
  }
}
