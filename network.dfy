/** `NeuralNetwork`: the list of operations added so far; inference
    evaluates the last one, which reaches the others as its operands. */
module Network {
  import opened Tensors
  import opened Results
  import opened Graph

  class NeuralNetwork {
    var operations: seq<Node>

    constructor ()
      ensures operations == []
    {
      operations := [];
    }

    /** `addOp`: appends `op` behind the earlier operations and returns it. */
    method AddOp(op: Node) returns (r: Node)
      modifies this
      ensures operations == old(operations) + [op] && r == op
      ensures |operations| == |old(operations)| + 1 && operations[|operations| - 1] == op
      ensures forall i :: 0 <= i < |old(operations)| ==> operations[i] == old(operations)[i]
    {
      operations := operations + [op];
      r := op;
    }

    /** `infer`: the default tensor for an empty network, else the
        evaluation of the last operation; the list is left as it is. */
    method Infer() returns (r: Result<TensorValue>)
      ensures operations == [] ==> r == Ok(Empty)
      ensures operations != [] ==> r == Evaluate(operations[|operations| - 1])
    {
      if |operations| == 0 {
        return Ok(Empty);
      }
      r := EvaluateNode(operations[|operations| - 1]);
    }

    /** `getOperations`: the operations in the order they were added. */
    function GetOperations(): (ops: seq<Node>)
      reads this
      ensures |ops| == |operations| && forall i :: 0 <= i < |ops| ==> ops[i] == operations[i]
    {
      operations
    }

    /** `clear`: forgets every operation. */
    method Clear()
      modifies this
      ensures operations == [] && GetOperations() == []
    {
      operations := [];
    }
  }

  /** Building a network operation by operation and clearing it: `getOperations`
      lists the operations in insertion order, and after `clear` inference
      gives the default tensor. */
  method AddThenClear(first: Node, second: Node) returns (listed: seq<Node>, afterClear: Result<TensorValue>)
    ensures listed == [first, second]
    ensures afterClear == Ok(Empty)
  {
    var nn := new NeuralNetwork();
    var a := nn.AddOp(first);
    var b := nn.AddOp(second);
    listed := nn.GetOperations();
    nn.Clear();
    afterClear := nn.Infer();
  }
}
