/** The 4-D NCHW tensor: a shape `[N, C, H, W]` and a flat row-major buffer
    of `N * C * H * W` elements (W varies fastest).  Elements are reals. */
module Tensors {
  import opened IndexArith

  /** Product of the dimensions, folded left to right as `Tensor::size` does. */
  function Product(s: seq<nat>): nat
  {
    if |s| == 0 then 1 else Product(s[..|s| - 1]) * s[|s| - 1]
  }

  /** A tensor has no elements exactly when one of its dimensions is 0. */
  lemma {:induction false} ProductZero(s: seq<nat>)
    ensures Product(s) == 0 <==> 0 in s
  {
    if |s| > 0 {
      var prefix := s[..|s| - 1];
      ProductZero(prefix);
      assert s == prefix + [s[|s| - 1]];
    }
  }

  lemma Product4(s: seq<nat>)
    requires |s| == 4
    ensures Product(s) == s[0] * s[1] * s[2] * s[3]
  {
    assert s[..3][..2] == s[..2] && s[..2][..1] == s[..1] && s[..1][..0] == [];
    assert Product(s[..1]) == s[0];
    assert Product(s[..2]) == s[0] * s[1];
    assert Product(s[..3]) == s[0] * s[1] * s[2];
  }

  /** The running product of `s`, computed with the accumulating loop the
      source repeats in `size()`, in `reshape` and in the `(shape, data)`
      constructor. */
  method DimProduct(s: seq<nat>) returns (total: nat)
    ensures total == Product(s)
  {
    total := 1;
    var i := 0;
    while i < |s|
      invariant 0 <= i <= |s|
      invariant total == Product(s[..i])
    {
      assert s[..i + 1][..i] == s[..i];
      total := total * s[i];
      i := i + 1;
    }
    assert s[..i] == s;
  }

  datatype RawTensor = RawTensor(shape: seq<nat>, data: seq<real>)
  {
    /** Four dimensions, and exactly one element per coordinate. */
    predicate Valid()
    {
      |shape| == 4 && |data| == Product(shape)
    }
  }

  /** A tensor value: what `evaluate` returns and what a node stores. */
  type TensorValue = t: RawTensor | t.Valid() witness RawTensor([0, 0, 0, 0], [])

  function Zeros(n: nat): (z: seq<real>)
    ensures |z| == n
    ensures forall i :: 0 <= i < n ==> z[i] == 0.0
  {
    seq(n, _ => 0.0)
  }

  /** `Tensor()`: shape `[0, 0, 0, 0]` and no data. */
  const Empty: TensorValue := RawTensor([0, 0, 0, 0], [])

  /** The value of `Tensor(shape, data)`: an empty `data` zero-fills. */
  function FromShapeData(s: seq<nat>, d: seq<real>): (t: TensorValue)
    requires |s| == 4 && (d == [] || |d| == Product(s))
    ensures t.shape == s
    ensures d != [] ==> t.data == d
    ensures d == [] ==> forall i :: 0 <= i < |t.data| ==> t.data[i] == 0.0
  {
    RawTensor(s, if d == [] then Zeros(Product(s)) else d)
  }

  /** Every valid tensor is rebuilt unchanged by the `(shape, data)`
      constructor, so copying a tensor through it loses nothing. */
  lemma FromShapeDataOfValue(t: TensorValue)
    ensures FromShapeData(t.shape, t.data) == t
  {
  }

  predicate InBounds(s: seq<nat>, n: nat, c: nat, h: nat, w: nat)
    requires |s| == 4
  {
    n < s[0] && c < s[1] && h < s[2] && w < s[3]
  }

  /** `Tensor::index`: the row-major offset of `(n, c, h, w)`.  An in-bounds
      coordinate lands inside the buffer. */
  function Offset(s: seq<nat>, n: nat, c: nat, h: nat, w: nat): (f: nat)
    requires |s| == 4
    ensures InBounds(s, n, c, h, w) ==> f < Product(s)
  {
    IndexInBounds(s, n, c, h, w);
    n * (s[1] * s[2] * s[3]) + c * (s[2] * s[3]) + h * s[3] + w
  }

  /** The bounds behind `Offset`'s contract, on the index formula itself. */
  lemma IndexInBounds(s: seq<nat>, n: nat, c: nat, h: nat, w: nat)
    requires |s| == 4
    ensures 0 <= n * (s[1] * s[2] * s[3]) + c * (s[2] * s[3]) + h * s[3] + w
    ensures InBounds(s, n, c, h, w) ==> n * (s[1] * s[2] * s[3]) + c * (s[2] * s[3]) + h * s[3] + w < Product(s)
  {
    assert n * (s[1] * s[2] * s[3]) + c * (s[2] * s[3]) + h * s[3] + w
        == ((n * s[1] + c) * s[2] + h) * s[3] + w;
    MulMono(0, n * s[1] + c, s[2]);
    MulMono(0, (n * s[1] + c) * s[2] + h, s[3]);
    if InBounds(s, n, c, h, w) {
      Product4(s);
      DigitsBound(n, s[0], c, s[1]);
      DigitsBound(n * s[1] + c, s[0] * s[1], h, s[2]);
      DigitsBound((n * s[1] + c) * s[2] + h, s[0] * s[1] * s[2], w, s[3]);
    }
  }

  lemma OffsetHorner(s: seq<nat>, n: nat, c: nat, h: nat, w: nat)
    requires |s| == 4
    ensures Offset(s, n, c, h, w) == ((n * s[1] + c) * s[2] + h) * s[3] + w
  {
  }

  /** Walking the coordinates in row-major order walks the offsets one by
      one: the end of a row is the start of the next, and so on outwards. */
  lemma OffsetCarry(s: seq<nat>, n: nat, c: nat, h: nat)
    requires |s| == 4
    ensures Offset(s, n, c, h, s[3]) == Offset(s, n, c, h + 1, 0)
    ensures Offset(s, n, c, s[2], 0) == Offset(s, n, c + 1, 0, 0)
    ensures Offset(s, n, s[1], 0, 0) == Offset(s, n + 1, 0, 0, 0)
  {
    assert h * s[3] + s[3] == (h + 1) * s[3];
    assert c * (s[2] * s[3]) + s[2] * s[3] == (c + 1) * (s[2] * s[3]);
    assert n * (s[1] * s[2] * s[3]) + s[1] * (s[2] * s[3]) == (n + 1) * (s[1] * s[2] * s[3]);
  }

  /** One past the last coordinate is the buffer's length. */
  lemma OffsetEnd(s: seq<nat>)
    requires |s| == 4
    ensures Offset(s, s[0], 0, 0, 0) == Product(s)
  {
    Product4(s);
  }

  /** Within one batch, the offset stays below the batch's element count. */
  lemma OffsetInBatch(s: seq<nat>, c: nat, h: nat, w: nat)
    requires |s| == 4 && c < s[1] && h < s[2] && w < s[3]
    ensures Offset(s, 0, c, h, w) < s[1] * s[2] * s[3]
  {
    DigitsBound(c, s[1], h, s[2]);
    DigitsBound(c * s[2] + h, s[1] * s[2], w, s[3]);
    assert Offset(s, 0, c, h, w) == (c * s[2] + h) * s[3] + w;
  }

  /** Consecutive batches start one batch's element count apart. */
  lemma BatchStride(s: seq<nat>, n: nat)
    requires |s| == 4
    ensures Offset(s, n + 1, 0, 0, 0) == Offset(s, n, 0, 0, 0) + s[1] * s[2] * s[3]
  {
    assert (n + 1) * (s[1] * s[2] * s[3]) == n * (s[1] * s[2] * s[3]) + s[1] * s[2] * s[3];
  }

  /** Batch `n` occupies `[Offset(s, n, 0, 0, 0), Offset(s, n + 1, 0, 0, 0))`,
      which lies inside the buffer. */
  lemma BatchInBuffer(s: seq<nat>, n: nat)
    requires |s| == 4 && n < s[0]
    ensures Offset(s, n + 1, 0, 0, 0) <= Product(s)
  {
    Product4(s);
    MulMono(n + 1, s[0], s[1] * s[2] * s[3]);
  }



  /** Distinct in-bounds coordinates have distinct offsets. */
  lemma OffsetInjective(s: seq<nat>, n: nat, c: nat, h: nat, w: nat,
                        n': nat, c': nat, h': nat, w': nat)
    requires |s| == 4 && InBounds(s, n, c, h, w) && InBounds(s, n', c', h', w')
    requires Offset(s, n, c, h, w) == Offset(s, n', c', h', w')
    ensures n == n' && c == c' && h == h' && w == w'
  {
    OffsetHorner(s, n, c, h, w);
    OffsetHorner(s, n', c', h', w');
    DigitsBound(n, s[0], c, s[1]);
    DigitsBound(n', s[0], c', s[1]);
    DigitsBound(n * s[1] + c, s[0] * s[1], h, s[2]);
    DigitsBound(n' * s[1] + c', s[0] * s[1], h', s[2]);
    DigitsUnique((n * s[1] + c) * s[2] + h, w, (n' * s[1] + c') * s[2] + h', w', s[3]);
    DigitsUnique(n * s[1] + c, h, n' * s[1] + c', h', s[2]);
    DigitsUnique(n, c, n', c', s[1]);
  }

  /** The coordinate of flat position `f`: the inverse of `Offset`. */
  function Unflatten(s: seq<nat>, f: nat): (t: (nat, nat, nat, nat))
    requires |s| == 4 && f < Product(s)
    ensures InBounds(s, t.0, t.1, t.2, t.3)
    ensures Offset(s, t.0, t.1, t.2, t.3) == f
  {
    NonZeroDims(s, f);
    UnflattenDigits(s, f);
    Digits(s, f)
  }

  /** Mixed-radix digits of `f` in the radices `s[1..]`, most significant first. */
  function Digits(s: seq<nat>, f: nat): (nat, nat, nat, nat)
    requires |s| == 4 && s[1] > 0 && s[2] > 0 && s[3] > 0
  {
    DivModParts(f, s[3]);
    DivModParts(f / s[3], s[2]);
    DivModParts(f / s[3] / s[2], s[1]);
    (f / s[3] / s[2] / s[1], f / s[3] / s[2] % s[1], f / s[3] % s[2], f % s[3])
  }

  lemma DivModParts(f: nat, d: nat)
    requires d > 0
    ensures f == (f / d) * d + f % d && 0 <= f % d < d && f / d >= 0
  {
  }

  lemma NonZeroDims(s: seq<nat>, f: nat)
    requires |s| == 4 && f < Product(s)
    ensures s[0] > 0 && s[1] > 0 && s[2] > 0 && s[3] > 0
  {
    Product4(s);
    PositiveFactors(s[0] * s[1] * s[2], s[3]);
    PositiveFactors(s[0] * s[1], s[2]);
    PositiveFactors(s[0], s[1]);
  }

  lemma UnflattenDigits(s: seq<nat>, f: nat)
    requires |s| == 4 && f < Product(s) && s[1] > 0 && s[2] > 0 && s[3] > 0
    ensures var t := Digits(s, f); InBounds(s, t.0, t.1, t.2, t.3) && Offset(s, t.0, t.1, t.2, t.3) == f
  {
    Product4(s);
    var S0, S1, S2, S3 := s[0], s[1], s[2], s[3];
    var q1 := f / S3;
    var q2 := q1 / S2;
    var n, c, h, w := q2 / S1, q2 % S1, q1 % S2, f % S3;
    assert Digits(s, f) == (n, c, h, w);
    DivModParts(f, S3);
    DivModParts(q1, S2);
    DivModParts(q2, S1);
    QuotientBound(f, S0 * S1 * S2, S3);
    QuotientBound(q1, S0 * S1, S2);
    QuotientBound(q2, S0, S1);
    OffsetHorner(s, n, c, h, w);
  }

  lemma UnflattenOffset(s: seq<nat>, n: nat, c: nat, h: nat, w: nat)
    requires |s| == 4 && InBounds(s, n, c, h, w)
    ensures Offset(s, n, c, h, w) < Product(s)
    ensures Unflatten(s, Offset(s, n, c, h, w)) == (n, c, h, w)
  {
    var t := Unflatten(s, Offset(s, n, c, h, w));
    OffsetInjective(s, t.0, t.1, t.2, t.3, n, c, h, w);
  }

  /** `at(n, c, h, w)` on a value. */
  function At(t: TensorValue, n: nat, c: nat, h: nat, w: nat): real
    requires InBounds(t.shape, n, c, h, w)
  {
    t.data[Offset(t.shape, n, c, h, w)]
  }

  /** The value after a write through `at(n, c, h, w)`. */
  function Update(t: TensorValue, n: nat, c: nat, h: nat, w: nat, v: real): (u: TensorValue)
    requires InBounds(t.shape, n, c, h, w)
    ensures u.shape == t.shape
  {
    RawTensor(t.shape, t.data[Offset(t.shape, n, c, h, w) := v])
  }

  /** A write through `at` changes exactly the addressed element: reading
      it back gives the new value, every other coordinate keeps its old one. */
  lemma UpdateReadBack(t: TensorValue, n: nat, c: nat, h: nat, w: nat, v: real,
                       n': nat, c': nat, h': nat, w': nat)
    requires InBounds(t.shape, n, c, h, w) && InBounds(t.shape, n', c', h', w')
    ensures At(Update(t, n, c, h, w, v), n', c', h', w')
         == if (n', c', h', w') == (n, c, h, w) then v else At(t, n', c', h', w')
  {
    if Offset(t.shape, n, c, h, w) == Offset(t.shape, n', c', h', w') {
      OffsetInjective(t.shape, n, c, h, w, n', c', h', w');
    }
  }

  /** Every flat position is the offset of exactly one coordinate, so two
      tensors of one shape that agree at every coordinate are equal. */
  lemma EqualByCoordinates(a: TensorValue, b: TensorValue)
    requires a.shape == b.shape
    requires forall n: nat, c: nat, h: nat, w: nat :: InBounds(a.shape, n, c, h, w) ==> At(a, n, c, h, w) == At(b, n, c, h, w)
    ensures a == b
  {
    forall f | 0 <= f < |a.data|
      ensures a.data[f] == b.data[f]
    {
      var t := Unflatten(a.shape, f);
      assert At(a, t.0, t.1, t.2, t.3) == At(b, t.0, t.1, t.2, t.3);
    }
  }

  // ----- elementwise arithmetic on values -----

  /** `lhs + rhs` (`operator+` / `+=`). */
  function Add(a: TensorValue, b: TensorValue): (r: TensorValue)
    requires a.shape == b.shape
    ensures r.shape == a.shape
    ensures forall i :: 0 <= i < |r.data| ==> r.data[i] == a.data[i] + b.data[i]
  {
    RawTensor(a.shape, seq(|a.data|, i requires 0 <= i < |a.data| => a.data[i] + b.data[i]))
  }

  /** `lhs - rhs` (`operator-` / `-=`). */
  function Sub(a: TensorValue, b: TensorValue): (r: TensorValue)
    requires a.shape == b.shape
    ensures r.shape == a.shape
    ensures forall i :: 0 <= i < |r.data| ==> r.data[i] == a.data[i] - b.data[i]
  {
    RawTensor(a.shape, seq(|a.data|, i requires 0 <= i < |a.data| => a.data[i] - b.data[i]))
  }

  /** `elementwise_mul(lhs, rhs)`: the Hadamard product. */
  function Hadamard(a: TensorValue, b: TensorValue): (r: TensorValue)
    requires a.shape == b.shape
    ensures r.shape == a.shape
    ensures forall i :: 0 <= i < |r.data| ==> r.data[i] == a.data[i] * b.data[i]
  {
    RawTensor(a.shape, seq(|a.data|, i requires 0 <= i < |a.data| => a.data[i] * b.data[i]))
  }

  /** `*= scalar`: every element scaled, no shape condition. */
  function Scale(a: TensorValue, k: real): (r: TensorValue)
    ensures r.shape == a.shape
    ensures forall i :: 0 <= i < |r.data| ==> r.data[i] == a.data[i] * k
  {
    RawTensor(a.shape, seq(|a.data|, i requires 0 <= i < |a.data| => a.data[i] * k))
  }

  /** `(A + B) - B == A`. */
  lemma SubUndoesAdd(a: TensorValue, b: TensorValue)
    requires a.shape == b.shape
    ensures Sub(Add(a, b), b) == a
  {
    assert Sub(Add(a, b), b).data == a.data;
  }

  /** `(A - B) + B == A`. */
  lemma AddUndoesSub(a: TensorValue, b: TensorValue)
    requires a.shape == b.shape
    ensures Add(Sub(a, b), b) == a
  {
    assert Add(Sub(a, b), b).data == a.data;
  }

  lemma AddCommutative(a: TensorValue, b: TensorValue)
    requires a.shape == b.shape
    ensures Add(a, b) == Add(b, a)
  {
    assert Add(a, b).data == Add(b, a).data;
  }

  lemma HadamardCommutative(a: TensorValue, b: TensorValue)
    requires a.shape == b.shape
    ensures Hadamard(a, b) == Hadamard(b, a)
  {
    assert Hadamard(a, b).data == Hadamard(b, a).data;
  }

  /** Elementwise addition read at a coordinate. */
  lemma AddAt(a: TensorValue, b: TensorValue, n: nat, c: nat, h: nat, w: nat)
    requires a.shape == b.shape && InBounds(a.shape, n, c, h, w)
    ensures At(Add(a, b), n, c, h, w) == At(a, n, c, h, w) + At(b, n, c, h, w)
  {
  }

  /** The mutable tensor object of the source: constructors, reshape, writes
      through `at`, and the in-place operators. */
  class Tensor {
    var shape: seq<nat>
    var data: seq<real>

    ghost predicate Valid()
      reads this
    {
      |shape| == 4 && |data| == Product(shape)
    }

    function Value(): TensorValue
      reads this
      requires Valid()
    {
      RawTensor(shape, data)
    }

    /** `Tensor()`. */
    constructor Default()
      ensures Valid() && Value() == Empty
    {
      shape := [0, 0, 0, 0];
      data := [];
    }

    /** `Tensor(batch, channels, height, width)`: zero-filled. */
    constructor FromDims(batch: nat, channels: nat, height: nat, width: nat)
      ensures Valid() && shape == [batch, channels, height, width]
      ensures data == Zeros(batch * channels * height * width)
    {
      shape := [batch, channels, height, width];
      data := Zeros(batch * channels * height * width);
      Product4([batch, channels, height, width]);
    }

    /** `Tensor(shape, data = {})`: an empty `data` zero-fills, any other
        `data` must have exactly `product(shape)` elements and is stored as is. */
    constructor FromShape(s: seq<nat>, d: seq<real>)
      requires |s| == 4 && (d == [] || |d| == Product(s))
      ensures Valid() && Value() == FromShapeData(s, d)
    {
      shape := s;
      var size := DimProduct(s);
      if |d| == 0 {
        data := Zeros(size);
      } else {
        data := d;
      }
    }

    /** The copy constructor. */
    constructor Copy(other: Tensor)
      requires other.Valid()
      ensures Valid() && Value() == other.Value()
    {
      shape := other.shape;
      data := other.data;
    }

    /** `shape(dim)`. */
    function Dim(dim: nat): (d: nat)
      reads this
      requires Valid() && dim < |shape|
      ensures d == shape[dim]
    {
      shape[dim]
    }

    /** `size()`. */
    method Size() returns (total: nat)
      requires Valid()
      ensures total == Product(shape) == |data|
    {
      total := DimProduct(shape);
    }

    /** `reshape(new_shape)`: the new shape must hold as many elements. */
    method Reshape(newShape: seq<nat>)
      requires Valid() && |newShape| == 4 && Product(newShape) == Product(shape)
      modifies this`shape
      ensures Valid() && shape == newShape
    {
      var newSize := DimProduct(newShape);
      var size := Size();
      assert newSize == size;
      shape := newShape;
    }

    /** The const `at(n, c, h, w)`: the buffer element at `index(n, c, h, w)`,
        which lies inside the buffer. */
    function At4(n: nat, c: nat, h: nat, w: nat): (v: real)
      reads this
      requires Valid() && InBounds(shape, n, c, h, w)
      ensures Offset(shape, n, c, h, w) < |data| && v == AtFlat(Offset(shape, n, c, h, w))
    {
      At(Value(), n, c, h, w)
    }

    /** A write through the mutable `at(n, c, h, w)`. */
    method SetAt(n: nat, c: nat, h: nat, w: nat, v: real)
      requires Valid() && InBounds(shape, n, c, h, w)
      modifies this`data
      ensures Valid() && Offset(shape, n, c, h, w) < |data|
      ensures data == old(data)[Offset(shape, n, c, h, w) := v]
      ensures Value() == Update(old(Value()), n, c, h, w, v)
    {
      data := data[Offset(shape, n, c, h, w) := v];
    }

    /** The const flat `at(idx)`: the element at the coordinate whose
        `index` is `idx`. */
    function AtFlat(idx: nat): (v: real)
      reads this
      requires Valid() && idx < |data|
      ensures var t := Unflatten(shape, idx); v == At(Value(), t.0, t.1, t.2, t.3)
    {
      data[idx]
    }

    /** A write through the mutable flat `at(idx)`. */
    method SetFlat(idx: nat, v: real)
      requires Valid() && idx < |data|
      modifies this`data
      ensures Valid() && data == old(data)[idx := v]
    {
      data := data[idx := v];
    }

    /** `GetData()`: a copy of the buffer, element `i` being the flat `at(i)`. */
    function GetData(): (d: seq<real>)
      reads this
      requires Valid()
      ensures |d| == Product(shape) && forall i :: 0 <= i < |d| ==> d[i] == AtFlat(i)
    {
      data
    }

    /** `operator+=`; `other` may be this very tensor. */
    method AddAssign(other: Tensor)
      requires Valid() && other.Valid() && shape == other.shape
      modifies this`data
      ensures Valid() && Value() == Add(old(Value()), old(other.Value()))
    {
      var i := 0;
      while i < |data|
        invariant 0 <= i <= |data| == |old(data)|
        invariant forall j :: 0 <= j < i ==> data[j] == old(data[j]) + old(other.data[j])
        invariant forall j :: i <= j < |data| ==> data[j] == old(data[j])
        invariant forall j :: i <= j < |data| ==> other.data[j] == old(other.data[j])
        invariant |other.data| == |data|
      {
        data := data[i := data[i] + other.data[i]];
        i := i + 1;
      }
    }

    /** `operator-=`; `other` may be this very tensor. */
    method SubAssign(other: Tensor)
      requires Valid() && other.Valid() && shape == other.shape
      modifies this`data
      ensures Valid() && Value() == Sub(old(Value()), old(other.Value()))
    {
      var i := 0;
      while i < |data|
        invariant 0 <= i <= |data| == |old(data)|
        invariant forall j :: 0 <= j < i ==> data[j] == old(data[j]) - old(other.data[j])
        invariant forall j :: i <= j < |data| ==> data[j] == old(data[j])
        invariant forall j :: i <= j < |data| ==> other.data[j] == old(other.data[j])
        invariant |other.data| == |data|
      {
        data := data[i := data[i] - other.data[i]];
        i := i + 1;
      }
    }

    /** `operator*=(scalar)`. */
    method ScaleAssign(k: real)
      requires Valid()
      modifies this`data
      ensures Valid() && Value() == Scale(old(Value()), k)
    {
      var i := 0;
      while i < |data|
        invariant 0 <= i <= |data| == |old(data)|
        invariant forall j :: 0 <= j < i ==> data[j] == old(data[j]) * k
        invariant forall j :: i <= j < |data| ==> data[j] == old(data[j])
      {
        data := data[i := data[i] * k];
        i := i + 1;
      }
      ghost var r := Scale(old(Value()), k);
      assert |r.data| == |data|;
      assert forall j :: 0 <= j < |data| ==> r.data[j] == old(data)[j] * k;
      assert data == r.data;
    }
  }

  /** `operator+`: a fresh copy of `lhs` with `rhs` added; neither operand changes. */
  method Plus(lhs: Tensor, rhs: Tensor) returns (result: Tensor)
    requires lhs.Valid() && rhs.Valid() && lhs.shape == rhs.shape
    ensures fresh(result) && result.Valid() && result.Value() == Add(lhs.Value(), rhs.Value())
  {
    result := new Tensor.Copy(lhs);
    result.AddAssign(rhs);
  }

  /** `operator-`: a fresh copy of `lhs` with `rhs` subtracted. */
  method Minus(lhs: Tensor, rhs: Tensor) returns (result: Tensor)
    requires lhs.Valid() && rhs.Valid() && lhs.shape == rhs.shape
    ensures fresh(result) && result.Valid() && result.Value() == Sub(lhs.Value(), rhs.Value())
  {
    result := new Tensor.Copy(lhs);
    result.SubAssign(rhs);
  }

  /** `elementwise_mul(lhs, rhs)`: copy `lhs`, then multiply in place. */
  method ElementwiseMul(lhs: Tensor, rhs: Tensor) returns (result: Tensor)
    requires lhs.Valid() && rhs.Valid() && lhs.shape == rhs.shape
    ensures fresh(result) && result.Valid() && result.Value() == Hadamard(lhs.Value(), rhs.Value())
  {
    result := new Tensor.Copy(lhs);
    ghost var product := Hadamard(lhs.Value(), rhs.Value());
    var i := 0;
    while i < |result.data|
      invariant 0 <= i <= |result.data| == |product.data|
      invariant result.shape == product.shape
      invariant forall j :: 0 <= j < i ==> result.data[j] == product.data[j]
      invariant forall j :: i <= j < |result.data| ==> result.data[j] == lhs.data[j]
    {
      result.data := result.data[i := result.data[i] * rhs.data[i]];
      i := i + 1;
    }
    assert result.data == product.data;
  }
}
