/** The expression graph: `InputData` leaves holding a tensor, and operation
    nodes that evaluate their operands and apply a kernel.  An operand is
    either another node or a literal tensor stored in the operation. */
module Graph {
  import opened Tensors
  import opened Results
  import opened Relu
  import opened MatMul
  import opened Convolution

  /** `InputData`: a leaf whose tensor `setTensor` can replace. */
  class InputData {
    var tensor: TensorValue

    /** `InputData(tensor)`: stores a copy of `t`. */
    constructor (t: TensorValue)
      ensures tensor == t
    {
      tensor := t;
    }

    /** `InputData::evaluate`: the stored tensor, shape and data alike. */
    method EvaluateLeaf() returns (r: TensorValue)
      ensures r == tensor && r.shape == tensor.shape && r.data == tensor.data
    {
      r := tensor;
    }

    /** `setTensor`: replaces the stored tensor and nothing else. */
    method SetTensor(t: TensorValue)
      modifies this
      ensures tensor == t && Evaluate(Input(this)) == Ok(t)
      ensures forall n: Node :: old(allocated(n)) && this !in Leaves(n) ==> Evaluate(n) == old(Evaluate(n))
    {
      tensor := t;
    }
  }

  /** One side of a binary operation: a node evaluated on demand, or a
      tensor copied into the operation when it was built. */
  datatype Operand = Node(node: Node) | Literal(tensor: TensorValue)

  /** The three elementwise operations. */
  datatype Elementwise = AddOp | SubOp | MulOp

  /** A node of the graph.  A node is built from nodes that exist already,
      so the graph is acyclic by construction. */
  datatype Node =
    | Input(data: InputData)
    | Scalar(op: Elementwise, lhs: Operand, rhs: Operand)
    | ReLU(arg: Node)
    | MatMulOp(lhs: Operand, rhs: Operand)
    | Convol(lhs: Operand, rhs: Operand, stride: nat, padding: nat)

  /** The `args_` list: the operands that are nodes, left to right. */
  function Args(n: Node): (args: seq<Node>)
    ensures forall i :: 0 <= i < |args| ==> args[i] < n
  {
    match n
    case Input(_) => []
    case Scalar(_, l, r) => OperandArgs(l) + OperandArgs(r)
    case ReLU(a) => [a]
    case MatMulOp(l, r) => OperandArgs(l) + OperandArgs(r)
    case Convol(l, r, _, _) => OperandArgs(l) + OperandArgs(r)
  }

  function OperandArgs(o: Operand): (args: seq<Node>)
    ensures |args| <= 1
  {
    if o.Node? then [o.node] else []
  }

  /** The leaves an operation reaches are exactly those reached through its
      `args_`: a literal operand contributes none. */
  lemma ArgsReachLeaves(n: Node, d: InputData)
    requires !n.Input?
    ensures d in Leaves(n) <==> exists i :: 0 <= i < |Args(n)| && d in Leaves(Args(n)[i])
  {
    var args := Args(n);
    match n
    case ReLU(a) =>
      assert args[0] == a;
    case Scalar(_, l, r) =>
      OperandArgsLeaves(l, d);
      OperandArgsLeaves(r, d);
      ConcatLeaves(OperandArgs(l), OperandArgs(r), d);
    case MatMulOp(l, r) =>
      OperandArgsLeaves(l, d);
      OperandArgsLeaves(r, d);
      ConcatLeaves(OperandArgs(l), OperandArgs(r), d);
    case Convol(l, r, _, _) =>
      OperandArgsLeaves(l, d);
      OperandArgsLeaves(r, d);
      ConcatLeaves(OperandArgs(l), OperandArgs(r), d);
  }

  lemma OperandArgsLeaves(o: Operand, d: InputData)
    ensures d in OperandLeaves(o) <==> exists i :: 0 <= i < |OperandArgs(o)| && d in Leaves(OperandArgs(o)[i])
  {
    if o.Node? {
      assert OperandArgs(o)[0] == o.node;
    }
  }

  lemma ConcatLeaves(a: seq<Node>, b: seq<Node>, d: InputData)
    ensures (exists i :: 0 <= i < |a + b| && d in Leaves((a + b)[i]))
        <==> (exists i :: 0 <= i < |a| && d in Leaves(a[i])) || (exists i :: 0 <= i < |b| && d in Leaves(b[i]))
  {
    if exists i :: 0 <= i < |a + b| && d in Leaves((a + b)[i]) {
      var i :| 0 <= i < |a + b| && d in Leaves((a + b)[i]);
      if i >= |a| {
        assert (a + b)[i] == b[i - |a|];
      }
    }
    if exists i :: 0 <= i < |a| && d in Leaves(a[i]) {
      var i :| 0 <= i < |a| && d in Leaves(a[i]);
      assert (a + b)[i] == a[i];
    }
    if exists i :: 0 <= i < |b| && d in Leaves(b[i]) {
      var i :| 0 <= i < |b| && d in Leaves(b[i]);
      assert (a + b)[|a| + i] == b[i];
    }
  }

  /** The `InputData` leaves a node reaches. */
  function Leaves(n: Node): set<InputData>
    decreases n, 1
  {
    match n
    case Input(d) => {d}
    case Scalar(_, l, r) => OperandLeaves(l) + OperandLeaves(r)
    case ReLU(a) => Leaves(a)
    case MatMulOp(l, r) => OperandLeaves(l) + OperandLeaves(r)
    case Convol(l, r, _, _) => OperandLeaves(l) + OperandLeaves(r)
  }

  function OperandLeaves(o: Operand): set<InputData>
    decreases o, 0
  {
    match o
    case Node(n) => Leaves(n)
    case Literal(_) => {}
  }

  /** The elementwise kernels as intended: equal shapes are required, and
      the result has the left shape and the pointwise sum, difference or
      product. */
  function ApplyElementwise(op: Elementwise, a: TensorValue, b: TensorValue): (r: Result<TensorValue>)
    ensures r.Ok? <==> a.shape == b.shape
    ensures r.Err? ==> r.error == ShapesMustMatch
    ensures r.Ok? ==> r.value.shape == a.shape && |r.value.data| == |a.data|
    ensures r.Ok? ==> forall i :: 0 <= i < |a.data| ==>
              r.value.data[i] == match op
                                 case AddOp => a.data[i] + b.data[i]
                                 case SubOp => a.data[i] - b.data[i]
                                 case MulOp => a.data[i] * b.data[i]
  {
    if a.shape != b.shape then Err(ShapesMustMatch)
    else match op
      case AddOp => Ok(Add(a, b))
      case SubOp => Ok(Sub(a, b))
      case MulOp => Ok(Hadamard(a, b))
  }

  /** The elementwise operations as written, with assertions enabled: the
      guard throws when the shapes are equal, and when they differ the tensor
      operator's own same-shape assertion fails, so no input gets through. */
  function ElementwiseAsWritten(op: Elementwise, a: TensorValue, b: TensorValue): (r: Result<TensorValue>)
    ensures r.Err?
    ensures a.shape == b.shape ==> r == Err(ShapesMustMatch)
  {
    if a.shape == b.shape then Err(ShapesMustMatch)
    else Err(AssertionFailure)
  }

  /** On the operands the guard is meant for, equal shapes, the written
      guard throws where the intended one computes. */
  lemma GuardInverted(op: Elementwise, a: TensorValue, b: TensorValue)
    requires a.shape == b.shape
    ensures ElementwiseAsWritten(op, a, b) == Err(ShapesMustMatch)
    ensures ApplyElementwise(op, a, b).Ok?
  {
  }

  /** `INode::evaluate`: a leaf gives its tensor; an operation evaluates its
      operands left to right, both of them for a binary one, and succeeds only
      when they do, the first operand error being the node's error. */
  function Evaluate(n: Node): (r: Result<TensorValue>)
    reads Leaves(n)
    ensures n.Input? ==> r == Ok(n.data.tensor)
    ensures n.ReLU? ==> (r.Ok? <==> Evaluate(n.arg).Ok?)
    ensures n.ReLU? && r.Ok? ==> r.value.shape == Evaluate(n.arg).value.shape
    ensures (n.Scalar? || n.MatMulOp? || n.Convol?) && r.Ok? ==>
              EvaluateOperand(n.lhs).Ok? && EvaluateOperand(n.rhs).Ok?
    ensures (n.Scalar? || n.MatMulOp? || n.Convol?) && EvaluateOperand(n.lhs).Err? ==>
              r == Err(EvaluateOperand(n.lhs).error)
    ensures (n.Scalar? || n.MatMulOp? || n.Convol?) && EvaluateOperand(n.lhs).Ok? && EvaluateOperand(n.rhs).Err? ==>
              r == Err(EvaluateOperand(n.rhs).error)
    ensures n.Scalar? && r.Ok? ==> r.value.shape == EvaluateOperand(n.lhs).value.shape
    decreases n, 1
  {
    match n
    case Input(d) => Ok(d.tensor)
    case Scalar(op, l, r) =>
      var a :- EvaluateOperand(l);
      var b :- EvaluateOperand(r);
      ApplyElementwise(op, a, b)
    case ReLU(x) =>
      var a :- Evaluate(x);
      Ok(Relu.Relu(a))
    case MatMulOp(l, r) =>
      var a :- EvaluateOperand(l);
      var b :- EvaluateOperand(r);
      MatMul.MatMul(a, b)
    case Convol(l, r, stride, padding) =>
      var a :- EvaluateOperand(l);
      var b :- EvaluateOperand(r);
      Convolve(a, b, stride, padding)
  }

  /** A node operand is evaluated, a literal is taken as stored, so only a
      node operand can fail. */
  function EvaluateOperand(o: Operand): (r: Result<TensorValue>)
    reads OperandLeaves(o)
    ensures o.Literal? ==> r == Ok(o.tensor)
    ensures r.Err? ==> o.Node?
    decreases o, 0
  {
    match o
    case Node(n) => Evaluate(n)
    case Literal(t) => Ok(t)
  }

  // ----- evaluation, running the kernels -----

  /** Every leaf a node reaches exists already. */
  lemma {:induction false} LeavesAllocated(n: Node)
    ensures forall d :: d in Leaves(n) ==> allocated(d)
    decreases n, 1
  {
    match n
    case Input(_) =>
    case Scalar(_, l, r) => OperandLeavesAllocated(l); OperandLeavesAllocated(r);
    case ReLU(a) => LeavesAllocated(a);
    case MatMulOp(l, r) => OperandLeavesAllocated(l); OperandLeavesAllocated(r);
    case Convol(l, r, _, _) => OperandLeavesAllocated(l); OperandLeavesAllocated(r);
  }

  lemma {:induction false} OperandLeavesAllocated(o: Operand)
    ensures forall d :: d in OperandLeaves(o) ==> allocated(d)
    decreases o, 0
  {
    if o.Node? {
      LeavesAllocated(o.node);
    }
  }

  /** `ScalarAddOperation`, `ScalarSubOperation` and `ScalarMulOperation::
      evaluate` after their operands: the shape guard, then `lhs + rhs`,
      `lhs - rhs` or `elementwise_mul(lhs, rhs)` on fresh copies. */
  method ElementwiseKernel(op: Elementwise, a: TensorValue, b: TensorValue) returns (r: Result<TensorValue>)
    ensures r == ApplyElementwise(op, a, b)
  {
    if a.shape != b.shape {
      return Err(ShapesMustMatch);
    }
    var lhs := new Tensor.FromShape(a.shape, a.data);
    var rhs := new Tensor.FromShape(b.shape, b.data);
    FromShapeDataOfValue(a);
    FromShapeDataOfValue(b);
    var result: Tensor;
    match op {
      case AddOp =>
        result := Plus(lhs, rhs);
      case SubOp =>
        result := Minus(lhs, rhs);
      case MulOp =>
        result := ElementwiseMul(lhs, rhs);
    }
    r := Ok(result.Value());
  }

  /** `evaluate` on a node, calling the kernels; it changes no node, so
      evaluating a node twice, or a node shared by two parents, gives the
      same tensor. */
  method EvaluateNode(n: Node) returns (r: Result<TensorValue>)
    ensures r == Evaluate(n)
    decreases n, 1
  {
    match n
    case Input(d) =>
      var t := d.EvaluateLeaf();
      r := Ok(t);
    case Scalar(op, l, rt) =>
      OperandLeavesAllocated(l);
      OperandLeavesAllocated(rt);
      var a :- EvaluateOperandNode(l);
      var b :- EvaluateOperandNode(rt);
      r := ElementwiseKernel(op, a, b);
    case ReLU(x) =>
      LeavesAllocated(x);
      var a :- EvaluateNode(x);
      var out := ReluKernel(a);
      r := Ok(out);
    case MatMulOp(l, rt) =>
      OperandLeavesAllocated(l);
      OperandLeavesAllocated(rt);
      var a :- EvaluateOperandNode(l);
      var b :- EvaluateOperandNode(rt);
      r := MatMulKernel(a, b);
    case Convol(l, rt, stride, padding) =>
      OperandLeavesAllocated(l);
      OperandLeavesAllocated(rt);
      var a :- EvaluateOperandNode(l);
      var b :- EvaluateOperandNode(rt);
      r := ConvolKernel(a, b, stride, padding);
  }

  /** An operand: `lhs_->evaluate()` for a node, the stored copy for a literal. */
  method EvaluateOperandNode(o: Operand) returns (r: Result<TensorValue>)
    ensures r == EvaluateOperand(o)
    decreases o, 0
  {
    match o
    case Node(n) =>
      r := EvaluateNode(n);
    case Literal(t) =>
      r := Ok(t);
  }
}
