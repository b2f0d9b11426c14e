/** The worked examples of the test suite, stated on the model: a `(1, 3, 2, 2)`
    input `[0.1, 0.2, ..., 1.2]` run through one-operation networks. */
module Scenarios {
  import opened Tensors
  import opened Results
  import opened Graph
  import opened Network
  import Relu
  import MatMul

  const Shape: seq<nat> := [1, 3, 2, 2]

  /** A `(1, 3, 2, 2)` tensor with the given twelve elements. */
  function Of(d: seq<real>): (t: TensorValue)
    requires |d| == 12
    ensures t.shape == Shape && t.data == d
  {
    assert Product(Shape) == 12 by { Product4(Shape); }
    RawTensor(Shape, d)
  }

  /** A `(1, 3, 2, 2)` tensor with every element `v`. */
  function Uniform(v: real): (t: TensorValue)
    ensures t.shape == Shape && |t.data| == 12 && forall i :: 0 <= i < 12 ==> t.data[i] == v
  {
    Of(seq(12, _ => v))
  }

  const Sample: TensorValue := Of([0.1, 0.2, 0.3, 0.4, 0.5, 0.6, 0.7, 0.8, 0.9, 1.0, 1.1, 1.2])

  /** The input plus 0.1, the expected value of the addition and the subtraction tests. */
  const PlusTenth: TensorValue := Of([0.2, 0.3, 0.4, 0.5, 0.6, 0.7, 0.8, 0.9, 1.0, 1.1, 1.2, 1.3])

  /** The sample plus a uniform 0.1 tensor. */
  lemma SamplePlusTenth()
    ensures Add(Sample, Uniform(0.1)) == PlusTenth
  {
    assert Add(Sample, Uniform(0.1)).data == PlusTenth.data;
  }

  /** Two `[[10, 1], [1, 10]]` blocks per channel, the right operand of the
      matrix-multiplication test. */
  const Mixer: TensorValue := Of([10.0, 1.0, 1.0, 10.0, 10.0, 1.0, 1.0, 10.0, 10.0, 1.0, 1.0, 10.0])

  /** Channel 0 of the product. */
  lemma SliceTimesMixer0()
    ensures At(MatMul.Product4D(Sample, Mixer), 0, 0, 0, 0) == 1.2
    ensures At(MatMul.Product4D(Sample, Mixer), 0, 0, 0, 1) == 2.1
    ensures At(MatMul.Product4D(Sample, Mixer), 0, 0, 1, 0) == 3.4
    ensures At(MatMul.Product4D(Sample, Mixer), 0, 0, 1, 1) == 4.3
  {
    MatMul.Product4DAt(Sample, Mixer, 0, 0, 0, 0);
    MatMul.Product4DAt(Sample, Mixer, 0, 0, 0, 1);
    MatMul.Product4DAt(Sample, Mixer, 0, 0, 1, 0);
    MatMul.Product4DAt(Sample, Mixer, 0, 0, 1, 1);
  }

  /** Channel 1 of the product. */
  lemma SliceTimesMixer1()
    ensures At(MatMul.Product4D(Sample, Mixer), 0, 1, 0, 0) == 5.6
    ensures At(MatMul.Product4D(Sample, Mixer), 0, 1, 0, 1) == 6.5
    ensures At(MatMul.Product4D(Sample, Mixer), 0, 1, 1, 0) == 7.8
    ensures At(MatMul.Product4D(Sample, Mixer), 0, 1, 1, 1) == 8.7
  {
    MatMul.Product4DAt(Sample, Mixer, 0, 1, 0, 0);
    MatMul.Product4DAt(Sample, Mixer, 0, 1, 0, 1);
    MatMul.Product4DAt(Sample, Mixer, 0, 1, 1, 0);
    MatMul.Product4DAt(Sample, Mixer, 0, 1, 1, 1);
  }

  /** Channel 2 of the product. */
  lemma SliceTimesMixer2()
    ensures At(MatMul.Product4D(Sample, Mixer), 0, 2, 0, 0) == 10.0
    ensures At(MatMul.Product4D(Sample, Mixer), 0, 2, 0, 1) == 10.9
    ensures At(MatMul.Product4D(Sample, Mixer), 0, 2, 1, 0) == 12.2
    ensures At(MatMul.Product4D(Sample, Mixer), 0, 2, 1, 1) == 13.1
  {
    MatMul.Product4DAt(Sample, Mixer, 0, 2, 0, 0);
    MatMul.Product4DAt(Sample, Mixer, 0, 2, 0, 1);
    MatMul.Product4DAt(Sample, Mixer, 0, 2, 1, 0);
    MatMul.Product4DAt(Sample, Mixer, 0, 2, 1, 1);
  }

  /** Each `2 x 2` slice of the sample times `[[10, 1], [1, 10]]`. */
  lemma SampleTimesMixer()
    ensures MatMul.MatMul(Sample, Mixer)
         == Ok(Of([1.2, 2.1, 3.4, 4.3, 5.6, 6.5, 7.8, 8.7, 10.0, 10.9, 12.2, 13.1]))
  {
    SliceTimesMixer0();
    SliceTimesMixer1();
    SliceTimesMixer2();
    var p := MatMul.Product4D(Sample, Mixer);
    assert p.data == [1.2, 2.1, 3.4, 4.3, 5.6, 6.5, 7.8, 8.7, 10.0, 10.9, 12.2, 13.1];
  }

  /** Runs `op` as the only operation of a fresh network. */
  method RunSingle(op: Node) returns (out: Result<TensorValue>)
    ensures out == Evaluate(op)
  {
    var nn := new NeuralNetwork();
    var added := nn.AddOp(op);
    out := nn.Infer();
  }

  /** Adding a uniform 0.1 tensor adds 0.1 to every element. */
  method AddScenario() returns (out: Result<TensorValue>)
    ensures out == Ok(PlusTenth)
  {
    var x := new InputData(Sample);
    var bias := new InputData(Uniform(0.1));
    out := RunSingle(Scalar(AddOp, Node(Input(x)), Node(Input(bias))));
    assert Evaluate(Input(x)) == Ok(Sample) && Evaluate(Input(bias)) == Ok(Uniform(0.1));
    SamplePlusTenth();
  }

  /** Subtracting a uniform -0.1 tensor also adds 0.1. */
  method SubScenario() returns (out: Result<TensorValue>)
    ensures out == Ok(PlusTenth)
  {
    var x := new InputData(Sample);
    var bias := new InputData(Uniform(-0.1));
    out := RunSingle(Scalar(SubOp, Node(Input(x)), Node(Input(bias))));
    assert Evaluate(Input(x)) == Ok(Sample) && Evaluate(Input(bias)) == Ok(Uniform(-0.1));
    assert Sub(Sample, Uniform(-0.1)).data == PlusTenth.data;
  }

  /** Multiplying by a uniform 10 tensor gives `[1, 2, ..., 12]`. */
  method MulScenario() returns (out: Result<TensorValue>)
    ensures out == Ok(Of([1.0, 2.0, 3.0, 4.0, 5.0, 6.0, 7.0, 8.0, 9.0, 10.0, 11.0, 12.0]))
  {
    var x := new InputData(Sample);
    var factor := new InputData(Uniform(10.0));
    out := RunSingle(Scalar(MulOp, Node(Input(x)), Node(Input(factor))));
    assert Evaluate(Input(x)) == Ok(Sample) && Evaluate(Input(factor)) == Ok(Uniform(10.0));
    assert Hadamard(Sample, Uniform(10.0)).data == [1.0, 2.0, 3.0, 4.0, 5.0, 6.0, 7.0, 8.0, 9.0, 10.0, 11.0, 12.0];
  }

  /** The signed input of the ReLU test. */
  const Signed: TensorValue := Of([0.1, -0.2, 0.3, -0.4, -0.5, 0.6, 0.7, -0.8, -0.9, 1.0, 1.1, 1.2])

  /** ReLU zeroes the negative elements of the signed input. */
  lemma SignedRelu()
    ensures Relu.Relu(Signed) == Of([0.1, 0.0, 0.3, 0.0, 0.0, 0.6, 0.7, 0.0, 0.0, 1.0, 1.1, 1.2])
  {
    assert Relu.Relu(Signed).data == [0.1, 0.0, 0.3, 0.0, 0.0, 0.6, 0.7, 0.0, 0.0, 1.0, 1.1, 1.2];
  }

  /** ReLU keeps the all-positive sample. */
  lemma SampleRelu()
    ensures Relu.Relu(Sample) == Sample
  {
    Relu.ReluOfSigned(Sample);
  }

  /** Multiplying the sample by `[[10, 1], [1, 10]]` slice by slice. */
  method MatMulScenario() returns (out: Result<TensorValue>)
    ensures out == Ok(Of([1.2, 2.1, 3.4, 4.3, 5.6, 6.5, 7.8, 8.7, 10.0, 10.9, 12.2, 13.1]))
  {
    var x := new InputData(Sample);
    var w := new InputData(Mixer);
    out := RunSingle(MatMulOp(Node(Input(x)), Node(Input(w))));
    assert Evaluate(Input(x)) == Ok(Sample) && Evaluate(Input(w)) == Ok(Mixer);
    SampleTimesMixer();
  }

  /** ReLU of the signed input zeroes exactly its negative elements. */
  method ReluScenario() returns (out: Result<TensorValue>)
    ensures out == Ok(Of([0.1, 0.0, 0.3, 0.0, 0.0, 0.6, 0.7, 0.0, 0.0, 1.0, 1.1, 1.2]))
  {
    var x := new InputData(Signed);
    out := RunSingle(ReLU(Input(x)));
    assert Evaluate(Input(x)) == Ok(Signed);
    SignedRelu();
  }

  /** Replacing a leaf's tensor with `setTensor` changes what the next
      inference computes: ReLU keeps the positive sample and, after the
      leaf is set to the signed tensor, zeroes its negative elements. */
  method SetTensorScenario() returns (before: Result<TensorValue>, after: Result<TensorValue>)
    ensures before == Ok(Sample)
    ensures after == Ok(Of([0.1, 0.0, 0.3, 0.0, 0.0, 0.6, 0.7, 0.0, 0.0, 1.0, 1.1, 1.2]))
  {
    var x := new InputData(Sample);
    var nn := new NeuralNetwork();
    var op := nn.AddOp(ReLU(Input(x)));
    before := nn.Infer();
    assert Evaluate(Input(x)) == Ok(Sample);
    SampleRelu();
    x.SetTensor(Signed);
    after := nn.Infer();
    assert Evaluate(Input(x)) == Ok(Signed);
    SignedRelu();
  }

  /** Two chained additions of the literal 0.1 tensor, the literal once on
      the right and once on the left, add 0.2. */
  method ChainScenario() returns (out: Result<TensorValue>)
    ensures out == Ok(Of([0.3, 0.4, 0.5, 0.6, 0.7, 0.8, 0.9, 1.0, 1.1, 1.2, 1.3, 1.4]))
  {
    var x := new InputData(Sample);
    var nn := new NeuralNetwork();
    var first := nn.AddOp(Scalar(AddOp, Node(Input(x)), Literal(Uniform(0.1))));
    var second := nn.AddOp(Scalar(AddOp, Literal(Uniform(0.1)), Node(first)));
    out := nn.Infer();
    assert Evaluate(Input(x)) == Ok(Sample);
    SamplePlusTenth();
    assert Evaluate(first) == Ok(PlusTenth);
    TenthPlusTenth();
  }

  /** The uniform 0.1 tensor on the left of the sample plus 0.1. */
  lemma TenthPlusTenth()
    ensures Add(Uniform(0.1), PlusTenth) == Of([0.3, 0.4, 0.5, 0.6, 0.7, 0.8, 0.9, 1.0, 1.1, 1.2, 1.3, 1.4])
  {
    assert Add(Uniform(0.1), PlusTenth).data == [0.3, 0.4, 0.5, 0.6, 0.7, 0.8, 0.9, 1.0, 1.1, 1.2, 1.3, 1.4];
  }
}
