/**
 Row-major index maps of any rank: coordinates against linear offsets, the concatenation kernel's
 gather, and the slices a softmax along one axis walks over.
 */
module IndexMaps {
  import opened Tokens
  import opened AttentionSpec

  type Shape = seq<nat>

  function Mul(a: nat, b: nat): nat {
    a * b
  }

  lemma MulFacts(a: nat, b: nat)
    ensures Mul(a, b) == a * b == Mul(b, a)
    ensures Mul(1, b) == b && Mul(0, b) == 0
    ensures Mul(a, b) > 0 <==> a > 0 && b > 0
  {}

  function Size(shape: Shape): nat {
    if shape == [] then 1 else Mul(Size(shape[..|shape| - 1]), shape[|shape| - 1])
  }

  predicate In(c: seq<nat>, shape: Shape) {
    |c| == |shape| && forall i :: 0 <= i < |c| ==> c[i] < shape[i]
  }

  /** Row-major offset. */
  function Linear(c: seq<nat>, shape: Shape): nat
    requires |c| == |shape|
  {
    if shape == [] then 0 else Mul(Linear(c[..|c| - 1], shape[..|shape| - 1]), shape[|shape| - 1]) + c[|c| - 1]
  }

  /** The coordinates of an offset. */
  function Coord(k: nat, shape: Shape): (c: seq<nat>)
    requires k < Size(shape)
    ensures |c| == |shape| && In(c, shape)
    decreases |shape|
  {
    hide Mul, Blk, Off;
    if shape == [] then [] else
      var d := shape[|shape| - 1];
      LastPositive(shape, k);
      QuotientBound(k, Size(shape[..|shape| - 1]), d);
      Coord(Blk(k, d), shape[..|shape| - 1]) + [Off(k, d)]
  }

  lemma LastPositive(shape: Shape, k: nat)
    requires shape != [] && k < Size(shape)
    ensures shape[|shape| - 1] > 0
  {}

  lemma QuotientBound(k: nat, n: nat, d: nat)
    requires d > 0 && k < Mul(n, d)
    ensures Blk(k, d) < n
  {
    BlkBelow(k, n, d);
  }

  lemma {:induction false} LinearBound(c: seq<nat>, shape: Shape)
    requires In(c, shape)
    ensures Linear(c, shape) < Size(shape)
  {
    if shape != [] {
      LinearBound(c[..|c| - 1], shape[..|shape| - 1]);
      HornerBound(Linear(c[..|c| - 1], shape[..|shape| - 1]), Size(shape[..|shape| - 1]), c[|c| - 1], shape[|shape| - 1]);
    }
  }

  lemma HornerBound(a: nat, n: nat, b: nat, d: nat)
    requires a < n && b < d
    ensures Mul(a, d) + b < Mul(n, d)
  {
    MulMono(a + 1, n, d);
  }

  lemma HornerParts(a: nat, b: nat, d: nat)
    requires b < d
    ensures Blk(Mul(a, d) + b, d) == a && Off(Mul(a, d) + b, d) == b
  {
    BlkOffOf(a, b, d);
  }

  lemma HornerOf(k: nat, d: nat)
    requires d > 0
    ensures Mul(Blk(k, d), d) + Off(k, d) == k
  {
    BlkOff(k, d);
  }

  lemma {:induction false} CoordOfLinear(c: seq<nat>, shape: Shape)
    requires In(c, shape)
    ensures Linear(c, shape) < Size(shape) && Coord(Linear(c, shape), shape) == c
  {
    LinearBound(c, shape);
    hide Mul, Blk, Off;
    if shape != [] {
      var d := shape[|shape| - 1];
      CoordOfLinear(c[..|c| - 1], shape[..|shape| - 1]);
      assert c == c[..|c| - 1] + [c[|c| - 1]];
      HornerParts(Linear(c[..|c| - 1], shape[..|shape| - 1]), c[|c| - 1], d);
    }
  }

  lemma {:induction false} LinearOfCoord(k: nat, shape: Shape)
    requires k < Size(shape)
    ensures Linear(Coord(k, shape), shape) == k
    decreases |shape|
  {
    hide Mul, Blk, Off;
    if shape != [] {
      var d := shape[|shape| - 1];
      LastPositive(shape, k);
      QuotientBound(k, Size(shape[..|shape| - 1]), d);
      LinearOfCoord(Blk(k, d), shape[..|shape| - 1]);
      HornerOf(k, d);
    }
  }

  /** Different coordinates have different offsets. */
  lemma LinearInjective(a: seq<nat>, b: seq<nat>, shape: Shape)
    requires In(a, shape) && In(b, shape) && Linear(a, shape) == Linear(b, shape)
    ensures a == b
  {
    CoordOfLinear(a, shape);
    CoordOfLinear(b, shape);
  }

  /** Leading and trailing axes separate. */
  lemma {:induction false} LinearConcat(a: seq<nat>, b: seq<nat>, s: Shape, t: Shape)
    requires |a| == |s| && |b| == |t|
    ensures Size(s + t) == Mul(Size(s), Size(t))
    ensures Linear(a + b, s + t) == Mul(Linear(a, s), Size(t)) + Linear(b, t)
  {
    hide Mul;
    MulFacts(Size(s), 1);
    MulFacts(Linear(a, s), 1);
    if t == [] {
      assert s + t == s && a + b == a;
    } else {
      var n, d := |t| - 1, t[|t| - 1];
      assert (s + t)[..|s + t| - 1] == s + t[..n] && (a + b)[..|a + b| - 1] == a + b[..n];
      LinearConcat(a, b[..n], s, t[..n]);
      Regroup(Size(s), Linear(a, s), Size(t[..n]), Linear(b[..n], t[..n]), d);
    }
  }

  lemma Regroup(n: nat, x: nat, m: nat, y: nat, d: nat)
    ensures Mul(Mul(n, m), d) == Mul(n, Mul(m, d))
    ensures Mul(Mul(x, m) + y, d) == Mul(x, Mul(m, d)) + Mul(y, d)
  {}

  lemma SizeFirst(shape: Shape, i: nat)
    requires i < |shape|
    ensures Size(shape[i..]) == Mul(shape[i], Size(shape[i + 1..]))
  {
    assert shape[i..] == [shape[i]] + shape[i + 1..];
    var zeros := seq(|shape[i + 1..]|, _ => 0);
    LinearConcat([0], zeros, [shape[i]], shape[i + 1..]);
    assert Size([shape[i]]) == shape[i] by { assert [shape[i]][..0] == []; MulFacts(1, shape[i]); }
    hide Mul;
  }

  lemma LinearFirst(c: seq<nat>, shape: Shape, i: nat)
    requires |c| == |shape| && i < |shape|
    ensures Linear(c[i..], shape[i..]) == Mul(c[i], Size(shape[i + 1..])) + Linear(c[i + 1..], shape[i + 1..])
  {
    assert shape[i..] == [shape[i]] + shape[i + 1..] && c[i..] == [c[i]] + c[i + 1..];
    LinearConcat([c[i]], c[i + 1..], [shape[i]], shape[i + 1..]);
    assert Linear([c[i]], [shape[i]]) == c[i] by { assert [shape[i]][..0] == [] && [c[i]][..0] == []; MulFacts(0, shape[i]); }
    hide Mul;
  }

  /** Around one axis the tensor is `[outer, dim, inner]`. */
  lemma Collapse(c: seq<nat>, shape: Shape, d: nat)
    requires |c| == |shape| && d < |shape|
    ensures Size(shape) == Mul(Size(shape[..d]), Mul(shape[d], Size(shape[d + 1..])))
    ensures Linear(c, shape) == Mul(Linear(c[..d], shape[..d]), Mul(shape[d], Size(shape[d + 1..])))
      + Mul(c[d], Size(shape[d + 1..])) + Linear(c[d + 1..], shape[d + 1..])
  {
    assert shape == shape[..d] + shape[d..] && c == c[..d] + c[d..];
    LinearConcat(c[..d], c[d..], shape[..d], shape[d..]);
    SizeFirst(shape, d);
    LinearFirst(c, shape, d);
  }

  // ---------------------------------------------------------------- the kernel's inversion and gather

  /** Peel coordinates off from the slowest axis: divide by what is left of the element count. */
  method Invert(k: nat, shape: Shape) returns (coord: seq<nat>)
    requires k < Size(shape)
    ensures coord == Coord(k, shape)
  {
    hide Mul, Blk, Off, Linear, Size;
    coord := [];
    var dim, idx := Size(shape), k;
    var i := 0;
    assert shape[0..] == shape;
    InvertStart(k, shape);
    while i < |shape|
      invariant 0 <= i <= |shape| && dim == Size(shape[i..]) && idx < dim && In(coord, shape[..i])
      invariant k == Mul(Linear(coord, shape[..i]), dim) + idx
    {
      SizeFirst(shape, i);
      InvertStep(k, coord, shape, i, idx, Size(shape[i + 1..]));
      dim := Blk(dim, shape[i]);
      coord := coord + [Blk(idx, dim)];
      idx := Off(idx, dim);
      i := i + 1;
    }
    assert shape[..i] == shape && shape[i..] == [];
    InvertEnd(k, coord, shape, idx);
  }

  lemma InvertStart(k: nat, shape: Shape)
    ensures k == Mul(Linear([], shape[..0]), Size(shape)) + k
  {}

  lemma InvertEnd(k: nat, coord: seq<nat>, shape: Shape, idx: nat)
    requires k < Size(shape) && In(coord, shape) && idx < Size([]) && k == Mul(Linear(coord, shape), Size([])) + idx
    ensures coord == Coord(k, shape)
  {
    MulFacts(Linear(coord, shape), 1);
    CoordOfLinear(coord, shape);
  }

  lemma QuotientIs(a: nat, b: nat)
    requires a > 0
    ensures Blk(Mul(a, b), a) == b
  {
    DivIs(a * b, a, b);
  }

  lemma InvertStep(k: nat, coord: seq<nat>, shape: Shape, i: nat, idx: nat, rest: nat)
    requires i < |shape| && In(coord, shape[..i])
    requires idx < Mul(shape[i], rest) && k == Mul(Linear(coord, shape[..i]), Mul(shape[i], rest)) + idx
    ensures shape[i] > 0 && rest > 0 && Blk(Mul(shape[i], rest), shape[i]) == rest
    ensures In(coord + [Blk(idx, rest)], shape[..i + 1])
    ensures k == Mul(Linear(coord + [Blk(idx, rest)], shape[..i + 1]), rest) + Off(idx, rest)
  {
    hide Mul, Blk, Off;
    MulFacts(shape[i], rest);
    QuotientIs(shape[i], rest);
    var q, r := Blk(idx, rest), Off(idx, rest);
    HornerOf(idx, rest);
    QuotientBound(idx, shape[i], rest);
    var more := coord + [q];
    var s := shape[..i + 1];
    assert s[..i] == shape[..i] && more[..i] == coord;
    assert In(more, s) by { forall t | 0 <= t < |more| ensures more[t] < s[t] { if t < i { assert coord[t] < shape[..i][t]; } } }
    var f := Linear(coord, shape[..i]);
    assert Linear(more, shape[..i + 1]) == Mul(f, shape[i]) + q;
    Regroup(0, f, shape[i], q, rest);
  }

  /** Offset of a coordinate, accumulated from the fastest axis with a running stride. */
  method Offset(c: seq<nat>, shape: Shape) returns (off: nat)
    requires |c| == |shape|
    ensures off == Linear(c, shape)
  {
    hide Mul, Linear, Size;
    off := 0;
    var stride := 1;
    var i := |shape|;
    EmptyLinear(c[i..], shape[i..]);
    while i > 0
      invariant 0 <= i <= |shape| && stride == Size(shape[i..]) && off == Linear(c[i..], shape[i..])
    {
      i := i - 1;
      SizeFirst(shape, i);
      LinearFirst(c, shape, i);
      MulFacts(stride, shape[i]);
      off := off + Mul(c[i], stride);
      stride := Mul(stride, shape[i]);
    }
    assert shape[0..] == shape && c[0..] == c;
  }

  lemma EmptyLinear(c: seq<nat>, shape: Shape)
    requires c == [] && shape == []
    ensures Size(shape) == 1 && Linear(c, shape) == 0
  {}

  // ---------------------------------------------------------------- concatenation

  /** Total of the first `j` axis sizes. */
  function Before(sizes: seq<nat>, j: nat): nat
    requires j <= |sizes|
  {
    if j == 0 then 0 else Before(sizes, j - 1) + sizes[j - 1]
  }

  lemma {:induction false} BeforeMono(sizes: seq<nat>, i: nat, j: nat)
    requires i <= j <= |sizes|
    ensures Before(sizes, i) <= Before(sizes, j)
  {
    if i < j { BeforeMono(sizes, i, j - 1); }
  }

  /** The input an axis coordinate falls into is unique. */
  lemma PieceUnique(sizes: seq<nat>, x: nat, i: nat, j: nat)
    requires i < |sizes| && j < |sizes|
    requires Before(sizes, i) <= x < Before(sizes, i + 1) && Before(sizes, j) <= x < Before(sizes, j + 1)
    ensures i == j
  {
    if i < j { BeforeMono(sizes, i + 1, j); }
    if j < i { BeforeMono(sizes, j + 1, i); }
  }

  /** Where an element of input `j` goes. */
  function OutCoord(c: seq<nat>, sizes: seq<nat>, axis: nat, j: nat): seq<nat>
    requires axis < |c| && j <= |sizes|
  {
    c[axis := c[axis] + Before(sizes, j)]
  }

  function InShape(outShape: Shape, sizes: seq<nat>, axis: nat, j: nat): Shape
    requires axis < |outShape| && j < |sizes|
  {
    outShape[axis := sizes[j]]
  }

  ghost predicate Fits(outShape: Shape, sizes: seq<nat>, axis: nat) {
    axis < |outShape| && outShape[axis] == Before(sizes, |sizes|)
  }

  lemma OutCoordIn(outShape: Shape, sizes: seq<nat>, axis: nat, j: nat, c: seq<nat>)
    requires Fits(outShape, sizes, axis) && j < |sizes| && In(c, InShape(outShape, sizes, axis, j))
    ensures In(OutCoord(c, sizes, axis, j), outShape)
  {
    BeforeMono(sizes, j + 1, |sizes|);
    var o, s := OutCoord(c, sizes, axis, j), InShape(outShape, sizes, axis, j);
    forall i | 0 <= i < |o| ensures o[i] < outShape[i] {
      assert c[i] < s[i];
    }
  }

  /** Output element `k` comes from offset `off` of input `j`. */
  ghost predicate ComesFrom(outShape: Shape, sizes: seq<nat>, axis: nat, k: nat, j: nat, off: nat)
    requires Fits(outShape, sizes, axis)
  {
    && j < |sizes|
    && exists c ::
         && In(c, InShape(outShape, sizes, axis, j)) && off == Linear(c, InShape(outShape, sizes, axis, j))
         && Linear(OutCoord(c, sizes, axis, j), outShape) == k
  }

  /** Which input an axis coordinate falls into, and where in it. */
  method Piece(x: nat, sizes: seq<nat>) returns (j: nat, dim: nat)
    requires x < Before(sizes, |sizes|)
    ensures j < |sizes| && dim < sizes[j] && x == Before(sizes, j) + dim
  {
    dim := x;
    j := 0;
    while dim >= sizes[j]
      invariant 0 <= j < |sizes| && x == Before(sizes, j) + dim
      decreases |sizes| - j
    {
      if j + 1 == |sizes| { assert false; }
      dim := dim - sizes[j];
      j := j + 1;
    }
  }

  lemma SourceIs(outShape: Shape, sizes: seq<nat>, axis: nat, k: nat, out: seq<nat>, j: nat, dim: nat)
    requires Fits(outShape, sizes, axis) && j < |sizes| && dim < sizes[j] && In(out, outShape) && Linear(out, outShape) == k
    requires out[axis] == Before(sizes, j) + dim
    ensures ComesFrom(outShape, sizes, axis, k, j, Linear(out[axis := dim], InShape(outShape, sizes, axis, j)))
  {
    var coord, shape := out[axis := dim], InShape(outShape, sizes, axis, j);
    forall i | 0 <= i < |coord| ensures coord[i] < shape[i] { if i != axis { assert out[i] < outShape[i]; } }
    assert OutCoord(coord, sizes, axis, j) == out;
  }

  /** One thread: the source of output element `k`. */
  method Source(k: nat, outShape: Shape, sizes: seq<nat>, axis: nat) returns (j: nat, off: nat)
    requires Fits(outShape, sizes, axis) && k < Size(outShape)
    ensures ComesFrom(outShape, sizes, axis, k, j, off)
  {
    hide Linear, Size, Coord, ComesFrom;
    var coord := Invert(k, outShape);
    LinearOfCoord(k, outShape);
    assert coord[axis] < outShape[axis];
    var dim;
    j, dim := Piece(coord[axis], sizes);
    SourceIs(outShape, sizes, axis, k, coord, j, dim);
    off := Offset(coord[axis := dim], InShape(outShape, sizes, axis, j));
  }

  /** The whole kernel: every element of every input lands in its cell, and every cell is filled. */
  method Concat(inputs: seq<seq<int>>, outShape: Shape, sizes: seq<nat>, axis: nat) returns (out: seq<int>)
    requires Fits(outShape, sizes, axis) && |inputs| == |sizes|
    requires forall j :: 0 <= j < |inputs| ==> |inputs[j]| == Size(InShape(outShape, sizes, axis, j))
    ensures |out| == Size(outShape)
    ensures forall j, c {:trigger OutCoord(c, sizes, axis, j)} ::
      0 <= j < |sizes| && In(c, InShape(outShape, sizes, axis, j)) ==>
        && In(OutCoord(c, sizes, axis, j), outShape)
        && Linear(OutCoord(c, sizes, axis, j), outShape) < |out|
        && Linear(c, InShape(outShape, sizes, axis, j)) < |inputs[j]|
        && out[Linear(OutCoord(c, sizes, axis, j), outShape)] == inputs[j][Linear(c, InShape(outShape, sizes, axis, j))]
  {
    out := [];
    var k := 0;
    while k < Size(outShape)
      invariant 0 <= k <= Size(outShape) && |out| == k
      invariant forall i :: 0 <= i < k ==> Gathered(inputs, outShape, sizes, axis, i, out[i])
    {
      var j, off := Source(k, outShape, sizes, axis);
      ghost var c :| In(c, InShape(outShape, sizes, axis, j)) && off == Linear(c, InShape(outShape, sizes, axis, j))
        && Linear(OutCoord(c, sizes, axis, j), outShape) == k;
      LinearBound(c, InShape(outShape, sizes, axis, j));
      GatheredIs(inputs, outShape, sizes, axis, k, j, c);
      out := out + [inputs[j][off]];
      k := k + 1;
    }
    forall j, c {:trigger OutCoord(c, sizes, axis, j)} | 0 <= j < |sizes| && In(c, InShape(outShape, sizes, axis, j))
      ensures In(OutCoord(c, sizes, axis, j), outShape)
      ensures Linear(OutCoord(c, sizes, axis, j), outShape) < |out| && Linear(c, InShape(outShape, sizes, axis, j)) < |inputs[j]|
      ensures out[Linear(OutCoord(c, sizes, axis, j), outShape)] == inputs[j][Linear(c, InShape(outShape, sizes, axis, j))]
    {
      OutCoordIn(outShape, sizes, axis, j, c);
      LinearBound(OutCoord(c, sizes, axis, j), outShape);
      LinearBound(c, InShape(outShape, sizes, axis, j));
      GatheredAt(inputs, outShape, sizes, axis, j, c, out[Linear(OutCoord(c, sizes, axis, j), outShape)]);
    }
  }

  /** Cell `k` of the output holds `x`, the element that belongs there. */
  ghost predicate Gathered(inputs: seq<seq<int>>, outShape: Shape, sizes: seq<nat>, axis: nat, k: nat, x: int)
    requires Fits(outShape, sizes, axis) && |inputs| == |sizes|
  {
    exists j, c {:trigger OutCoord(c, sizes, axis, j)} ::
      && 0 <= j < |sizes| && In(c, InShape(outShape, sizes, axis, j)) && Linear(OutCoord(c, sizes, axis, j), outShape) == k
      && Linear(c, InShape(outShape, sizes, axis, j)) < |inputs[j]| && x == inputs[j][Linear(c, InShape(outShape, sizes, axis, j))]
  }

  lemma GatheredIs(inputs: seq<seq<int>>, outShape: Shape, sizes: seq<nat>, axis: nat, k: nat, j: nat, c: seq<nat>)
    requires Fits(outShape, sizes, axis) && |inputs| == |sizes| && j < |sizes| && In(c, InShape(outShape, sizes, axis, j))
    requires Linear(OutCoord(c, sizes, axis, j), outShape) == k && Linear(c, InShape(outShape, sizes, axis, j)) < |inputs[j]|
    ensures Gathered(inputs, outShape, sizes, axis, k, inputs[j][Linear(c, InShape(outShape, sizes, axis, j))])
  {}

  lemma GatheredAt(inputs: seq<seq<int>>, outShape: Shape, sizes: seq<nat>, axis: nat, j: nat, c: seq<nat>, x: int)
    requires Fits(outShape, sizes, axis) && |inputs| == |sizes| && j < |sizes| && In(c, InShape(outShape, sizes, axis, j))
    requires Linear(c, InShape(outShape, sizes, axis, j)) < |inputs[j]|
    requires Gathered(inputs, outShape, sizes, axis, Linear(OutCoord(c, sizes, axis, j), outShape), x)
    ensures x == inputs[j][Linear(c, InShape(outShape, sizes, axis, j))]
  {
    var i, b :| 0 <= i < |sizes| && In(b, InShape(outShape, sizes, axis, i))
      && Linear(OutCoord(b, sizes, axis, i), outShape) == Linear(OutCoord(c, sizes, axis, j), outShape)
      && Linear(b, InShape(outShape, sizes, axis, i)) < |inputs[i]| && x == inputs[i][Linear(b, InShape(outShape, sizes, axis, i))];
    OutCoordIn(outShape, sizes, axis, i, b);
    OutCoordIn(outShape, sizes, axis, j, c);
    var p, q := OutCoord(b, sizes, axis, i), OutCoord(c, sizes, axis, j);
    LinearInjective(p, q, outShape);
    OriginUnique(outShape, sizes, axis, i, b, j, c);
  }

  /** No two elements of the inputs go to the same cell. */
  lemma OriginUnique(outShape: Shape, sizes: seq<nat>, axis: nat, i: nat, b: seq<nat>, j: nat, c: seq<nat>)
    requires Fits(outShape, sizes, axis) && i < |sizes| && j < |sizes|
    requires In(b, InShape(outShape, sizes, axis, i)) && In(c, InShape(outShape, sizes, axis, j))
    requires OutCoord(b, sizes, axis, i) == OutCoord(c, sizes, axis, j)
    ensures i == j && b == c
  {
    var p, q := OutCoord(b, sizes, axis, i), OutCoord(c, sizes, axis, j);
    assert b[axis] < InShape(outShape, sizes, axis, i)[axis] && c[axis] < InShape(outShape, sizes, axis, j)[axis];
    PieceUnique(sizes, p[axis], i, j);
    forall k | 0 <= k < |b| ensures b[k] == c[k] { assert p[k] == q[k]; }
  }

  // ---------------------------------------------------------------- slices along one axis

  function Drop(c: seq<nat>, d: nat): (r: seq<nat>)
    requires d < |c|
    ensures |r| == |c| - 1
  {
    c[..d] + c[d + 1..]
  }

  function Put(c: seq<nat>, d: nat, x: nat): (r: seq<nat>)
    requires d <= |c|
    ensures |r| == |c| + 1
  {
    c[..d] + [x] + c[d..]
  }

  /** Offset of the first element of the slice whose other coordinates are `c`. */
  function First(c: seq<nat>, shape: Shape, d: nat): nat
    requires d < |shape| && |c| == |shape| - 1
  {
    Linear(Put(c, d, 0), shape)
  }

  /** Start of slice number `row`: the other axes take the coordinates of `row`, axis `d` is zero. */
  function Start(row: nat, shape: Shape, d: nat): nat
    requires d < |shape| && row < Size(Drop(shape, d))
  {
    hide *;
    First(Coord(row, Drop(shape, d)), shape, d)
  }

  /** Row-major stride of an axis. */
  function Stride(shape: Shape, d: nat): nat
    requires d < |shape|
  {
    Size(shape[d + 1..])
  }

  lemma PutIn(c: seq<nat>, shape: Shape, d: nat, x: nat)
    requires d < |shape| && In(c, Drop(shape, d)) && x < shape[d]
    ensures In(Put(c, d, x), shape)
  {
    var p, s := Put(c, d, x), Drop(shape, d);
    forall i | 0 <= i < |p| ensures p[i] < shape[i] {
      if i < d { assert c[i] < s[i]; } else if i > d { assert c[i - 1] < s[i - 1]; }
    }
  }

  lemma DropIn(c: seq<nat>, shape: Shape, d: nat)
    requires d < |shape| && In(c, shape)
    ensures In(Drop(c, d), Drop(shape, d)) && Put(Drop(c, d), d, c[d]) == c && c[d] < shape[d]
  {}

  /** Moving along the axis by one adds the stride. */
  lemma Walk(c: seq<nat>, shape: Shape, d: nat, x: nat)
    requires d < |shape| && |c| == |shape| - 1
    ensures Linear(Put(c, d, x), shape) == Linear(Put(c, d, 0), shape) + Mul(x, Stride(shape, d))
  {
    hide Mul, Linear, Size;
    Collapse(Put(c, d, x), shape, d);
    Collapse(Put(c, d, 0), shape, d);
    assert Put(c, d, x)[..d] == c[..d] == Put(c, d, 0)[..d];
    assert Put(c, d, x)[d + 1..] == c[d..] == Put(c, d, 0)[d + 1..];
    MulFacts(0, Stride(shape, d));
  }

  /** The cell reached in slice `row` at position `j`. */
  function Cell(row: nat, j: nat, shape: Shape, d: nat): nat
    requires d < |shape| && row < Size(Drop(shape, d))
  {
    Start(row, shape, d) + Mul(j, Stride(shape, d))
  }

  /** The cell of a pair, as coordinates. */
  lemma CellIs(row: nat, j: nat, shape: Shape, d: nat)
    requires d < |shape| && row < Size(Drop(shape, d)) && j < shape[d]
    ensures var p := Put(Coord(row, Drop(shape, d)), d, j);
      In(p, shape) && Cell(row, j, shape, d) == Linear(p, shape) < Size(shape)
  {
    hide Mul, Linear, Size, Coord, Put;
    var c := Coord(row, Drop(shape, d));
    Walk(c, shape, d, j);
    PutIn(c, shape, d, j);
    LinearBound(Put(c, d, j), shape);
  }

  lemma PutInjective(c: seq<nat>, j: nat, c': seq<nat>, j': nat, d: nat)
    requires d <= |c| == |c'| && Put(c, d, j) == Put(c', d, j')
    ensures c == c' && j == j'
  {
    var p, p' := Put(c, d, j), Put(c', d, j');
    assert p[d] == j && p'[d] == j';
    assert c == p[..d] + p[d + 1..] && c' == p'[..d] + p'[d + 1..];
  }

  lemma CoordInjective(k: nat, k': nat, shape: Shape)
    requires k < Size(shape) && k' < Size(shape) && Coord(k, shape) == Coord(k', shape)
    ensures k == k'
  {
    LinearOfCoord(k, shape);
    LinearOfCoord(k', shape);
  }

  /** Every pair of a slice and a position names a cell of the tensor, and no two pairs the same one. */
  lemma CellInjective(row: nat, j: nat, row': nat, j': nat, shape: Shape, d: nat)
    requires d < |shape| && row < Size(Drop(shape, d)) && row' < Size(Drop(shape, d)) && j < shape[d] && j' < shape[d]
    ensures Cell(row, j, shape, d) < Size(shape)
    ensures Cell(row, j, shape, d) == Cell(row', j', shape, d) ==> row == row' && j == j'
  {
    hide Mul, Linear, Size, Coord, Put, Cell;
    CellIs(row, j, shape, d);
    CellIs(row', j', shape, d);
    if Cell(row, j, shape, d) == Cell(row', j', shape, d) {
      var c, c' := Coord(row, Drop(shape, d)), Coord(row', Drop(shape, d));
      LinearInjective(Put(c, d, j), Put(c', d, j'), shape);
      PutInjective(c, j, c', j', d);
      CoordInjective(row, row', Drop(shape, d));
    }
  }

  /** Every cell is reached. */
  lemma CellOnto(k: nat, shape: Shape, d: nat) returns (row: nat, j: nat)
    requires d < |shape| && k < Size(shape)
    ensures row < Size(Drop(shape, d)) && j < shape[d] && Cell(row, j, shape, d) == k
    ensures row == Linear(Drop(Coord(k, shape), d), Drop(shape, d)) && j == Coord(k, shape)[d]
  {
    hide Mul, Linear, Size, Coord;
    var c := Coord(k, shape);
    DropIn(c, shape, d);
    LinearBound(Drop(c, d), Drop(shape, d));
    row, j := Linear(Drop(c, d), Drop(shape, d)), c[d];
    CoordOfLinear(Drop(c, d), Drop(shape, d));
    Walk(Drop(c, d), shape, d, j);
    LinearOfCoord(k, shape);
  }

  /** The start of a slice, as the loop finds it: peel the other axes off the slice number from the fastest one. */
  method RowStart(rowIdx: nat, d: nat, shape: Shape) returns (result: nat)
    requires d < |shape| && rowIdx < Size(Drop(shape, d)) && forall i :: 0 <= i < |shape| ==> shape[i] > 0
    ensures result == Start(rowIdx, shape, d)
  {
    hide Mul, Linear, Size, Coord, Blk, Off;
    ghost var c := Put(Coord(rowIdx, Drop(shape, d)), d, 0);
    result := 0;
    var row := rowIdx;
    var i := |shape|;
    RowBegin(rowIdx, d, shape);
    while i > 0
      invariant 0 <= i <= |shape| && RowLeft(rowIdx, d, shape, i, row)
      invariant result == Linear(c[i..], shape[i..])
    {
      i := i - 1;
      LinearFirst(c, shape, i);
      MulFacts(0, Size(shape[i + 1..]));
      RowStep(rowIdx, d, shape, i, row);
      if i != d {
        result := result + Mul(Off(row, shape[i]), Size(shape[i + 1..]));
        row := Blk(row, shape[i]);
      }
    }
    assert c[0..] == c && shape[0..] == shape;
  }

  /** What is left of the slice number after the axes from `i` on: the offset over the remaining other axes. */
  ghost predicate RowLeft(rowIdx: nat, d: nat, shape: Shape, i: nat, row: nat)
    requires d < |shape| && rowIdx < Size(Drop(shape, d)) && i <= |shape|
  {
    var n := if i <= d then i else i - 1;
    row == Linear(Coord(rowIdx, Drop(shape, d))[..n], Drop(shape, d)[..n])
  }

  lemma RowBegin(rowIdx: nat, d: nat, shape: Shape)
    requires d < |shape| && rowIdx < Size(Drop(shape, d))
    ensures RowLeft(rowIdx, d, shape, |shape|, rowIdx)
    ensures Linear(Put(Coord(rowIdx, Drop(shape, d)), d, 0)[|shape|..], shape[|shape|..]) == 0
  {
    var n := |shape| - 1;
    LinearOfCoord(rowIdx, Drop(shape, d));
    assert Coord(rowIdx, Drop(shape, d))[..n] == Coord(rowIdx, Drop(shape, d)) && Drop(shape, d)[..n] == Drop(shape, d);
  }

  lemma RowStep(rowIdx: nat, d: nat, shape: Shape, i: nat, row: nat)
    requires d < |shape| && rowIdx < Size(Drop(shape, d)) && i < |shape| && RowLeft(rowIdx, d, shape, i + 1, row) && shape[i] > 0
    ensures i == d ==> RowLeft(rowIdx, d, shape, i, row)
    ensures i != d ==>
      Off(row, shape[i]) == Put(Coord(rowIdx, Drop(shape, d)), d, 0)[i] && RowLeft(rowIdx, d, shape, i, Blk(row, shape[i]))
  {
    hide Mul, Coord, Blk, Off;
    if i != d {
      var n := if i < d then i else i - 1;
      var c, s := Coord(rowIdx, Drop(shape, d)), Drop(shape, d);
      assert s[n] == shape[i] && c[n] < s[n] && Put(c, d, 0)[i] == c[n];
      assert c[..n + 1][..n] == c[..n] && s[..n + 1][..n] == s[..n];
      HornerParts(Linear(c[..n], s[..n]), c[n], s[n]);
    }
  }

  // ---------------------------------------------------------------- softmax along an axis

  /** Sum of the exponentials of the first `n` cells of a slice. */
  function SliceSum(e: real -> real, x: seq<real>, row: nat, shape: Shape, d: nat, n: nat): real
    requires d < |shape| && row < Size(Drop(shape, d)) && n <= shape[d] && |x| == Size(shape)
  {
    if n == 0 then 0.0 else
      CellInjective(row, n - 1, row, n - 1, shape, d);
      SliceSum(e, x, row, shape, d, n - 1) + e(x[Cell(row, n - 1, shape, d)])
  }

  lemma {:induction false} SliceSumPositive(e: real -> real, x: seq<real>, row: nat, shape: Shape, d: nat, n: nat)
    requires IsExp(e) && d < |shape| && row < Size(Drop(shape, d)) && n <= shape[d] && |x| == Size(shape)
    ensures SliceSum(e, x, row, shape, d, n) >= 0.0 && (n > 0 ==> SliceSum(e, x, row, shape, d, n) > 0.0)
  {
    hide IsExp;
    if n > 0 {
      SliceSumPositive(e, x, row, shape, d, n - 1);
      CellInjective(row, n - 1, row, n - 1, shape, d);
      ExpPos(e, x[Cell(row, n - 1, shape, d)]);
    }
  }

  /** What a softmax puts in cell `k`. */
  function Softmax(e: real -> real, x: seq<real>, shape: Shape, d: nat, row: nat, j: nat): real
    requires IsExp(e) && d < |shape| && row < Size(Drop(shape, d)) && j < shape[d] && |x| == Size(shape)
  {
    CellInjective(row, j, row, j, shape, d);
    SliceSumPositive(e, x, row, shape, d, shape[d]);
    e(x[Cell(row, j, shape, d)]) / SliceSum(e, x, row, shape, d, shape[d])
  }

  /** First pass: the largest cell of a slice. */
  method SliceMax(x: seq<real>, row: nat, shape: Shape, d: nat, start: nat, stride: nat) returns (m: real)
    requires d < |shape| && row < Size(Drop(shape, d)) && 0 < shape[d] && |x| == Size(shape)
    requires start == Start(row, shape, d) && stride == Stride(shape, d)
    ensures exists j :: 0 <= j < shape[d] && Cell(row, j, shape, d) < |x| && x[Cell(row, j, shape, d)] == m
    ensures forall j :: 0 <= j < shape[d] ==> Cell(row, j, shape, d) < |x| && x[Cell(row, j, shape, d)] <= m
  {
    hide Mul, Start, Stride, Size;
    CellInjective(row, 0, row, 0, shape, d);
    var best := Score.NegInf;
    var j := 0;
    while j < shape[d]
      invariant 0 <= j <= shape[d] && (best.Fin? <==> j > 0)
      invariant best.Fin? ==> exists i :: 0 <= i < j && Cell(row, i, shape, d) < |x| && x[Cell(row, i, shape, d)] == best.x
      invariant forall i :: 0 <= i < j ==> Cell(row, i, shape, d) < |x| && Below(Fin(x[Cell(row, i, shape, d)]), best)
    {
      CellInjective(row, j, row, j, shape, d);
      assert start + Mul(j, stride) == Cell(row, j, shape, d);
      var y := Fin(x[start + Mul(j, stride)]);
      if best.NegInf? || best.x < y.x {
        best := y;
      }
      j := j + 1;
    }
    m := best.x;
  }

  /** Second pass: the sum relative to the maximum. */
  method SliceTotal(e: real -> real, x: seq<real>, row: nat, shape: Shape, d: nat, start: nat, stride: nat, m: real) returns (sum: real)
    requires IsExp(e) && d < |shape| && row < Size(Drop(shape, d)) && |x| == Size(shape)
    requires start == Start(row, shape, d) && stride == Stride(shape, d)
    ensures sum * e(m) == SliceSum(e, x, row, shape, d, shape[d])
  {
    hide IsExp, Mul, Start, Stride, Size;
    sum := 0.0;
    var j := 0;
    while j < shape[d]
      invariant 0 <= j <= shape[d] && sum * e(m) == SliceSum(e, x, row, shape, d, j)
    {
      CellInjective(row, j, row, j, shape, d);
      assert start + Mul(j, stride) == Cell(row, j, shape, d);
      var y := x[start + Mul(j, stride)];
      ExpShift(e, y, m);
      assert (sum + e(y - m)) * e(m) == sum * e(m) + e(y - m) * e(m);
      sum := sum + e(y - m);
      j := j + 1;
    }
  }

  lemma ShiftCancels(e: real -> real, y: real, m: real, sum: real, total: real)
    requires IsExp(e) && sum * e(m) == total && total > 0.0
    ensures sum > 0.0 && e(y - m) / sum == e(y) / total
  {
    ExpPos(e, m);
    ExpShift(e, y, m);
    Quotient(e(y - m), sum, e(m));
  }

  /** Cell `k` of the result is the softmax along axis `d` at its own place. */
  ghost predicate SoftmaxAt(e: real -> real, x: seq<real>, shape: Shape, d: nat, row: nat, j: nat, result: seq<real>)
    requires IsExp(e) && d < |shape| && row < Size(Drop(shape, d)) && j < shape[d] && |x| == |result| == Size(shape)
  {
    CellInjective(row, j, row, j, shape, d);
    result[Cell(row, j, shape, d)] == Softmax(e, x, shape, d, row, j)
  }

  /** `y` is the softmax at cell `k`, which lies in exactly one slice. */
  ghost predicate SoftmaxCell(e: real -> real, x: seq<real>, shape: Shape, d: nat, k: nat, y: real)
    requires IsExp(e) && d < |shape| && |x| == Size(shape)
  {
    exists row, j :: (0 <= row < Size(Drop(shape, d)) && 0 <= j < shape[d] && Cell(row, j, shape, d) == k
                      && y == Softmax(e, x, shape, d, row, j))
  }

  lemma SoftmaxIs(e: real -> real, x: seq<real>, shape: Shape, d: nat, row: nat, j: nat)
    requires IsExp(e) && d < |shape| && row < Size(Drop(shape, d)) && j < shape[d] && |x| == Size(shape)
    ensures Cell(row, j, shape, d) < |x| && SliceSum(e, x, row, shape, d, shape[d]) > 0.0
    ensures Softmax(e, x, shape, d, row, j) == e(x[Cell(row, j, shape, d)]) / SliceSum(e, x, row, shape, d, shape[d])
  {
    CellInjective(row, j, row, j, shape, d);
    SliceSumPositive(e, x, row, shape, d, shape[d]);
  }

  /** The three passes, slice by slice; afterwards every cell of the tensor holds its softmax. */
  method SoftmaxAlong(e: real -> real, x: seq<real>, shape: Shape, d: nat) returns (result: seq<real>)
    requires IsExp(e) && d < |shape| && |x| == Size(shape) && forall i :: 0 <= i < |shape| ==> shape[i] > 0
    ensures |result| == |x|
    ensures forall k :: 0 <= k < Size(shape) ==> SoftmaxCell(e, x, shape, d, k, result[k])
  {
    hide IsExp, Mul, Stride, Size, Softmax, Linear, Coord;
    var stride := Stride(shape, d);
    var rows := Size(Drop(shape, d));
    result := seq(|x|, _ => 0.0);
    var row := 0;
    while row < rows
      invariant 0 <= row <= rows && |result| == |x|
      invariant forall r, j :: 0 <= r < row && 0 <= j < shape[d] ==> SoftmaxAt(e, x, shape, d, r, j, result)
    {
      result := SoftmaxRow(e, x, shape, d, row, stride, result);
      row := row + 1;
    }
    forall k | 0 <= k < Size(shape) ensures SoftmaxCell(e, x, shape, d, k, result[k]) {
      var r, j := CellOnto(k, shape, d);
      assert SoftmaxAt(e, x, shape, d, r, j, result);
    }
  }

  /** One slice: start, maximum, sum, quotients. Other slices are left alone. */
  method SoftmaxRow(e: real -> real, x: seq<real>, shape: Shape, d: nat, row: nat, stride: nat, was: seq<real>) returns (result: seq<real>)
    requires IsExp(e) && d < |shape| && |x| == |was| == Size(shape) && forall i :: 0 <= i < |shape| ==> shape[i] > 0
    requires row < Size(Drop(shape, d)) && stride == Stride(shape, d)
    ensures |result| == |x|
    ensures forall r, j :: 0 <= r < Size(Drop(shape, d)) && 0 <= j < shape[d] && r != row ==>
      (SoftmaxAt(e, x, shape, d, r, j, was) ==> SoftmaxAt(e, x, shape, d, r, j, result))
    ensures forall j :: 0 <= j < shape[d] ==> SoftmaxAt(e, x, shape, d, row, j, result)
  {
    hide IsExp, Mul, Stride, Size, Softmax, Linear, Coord;
    var start := RowStart(row, d, shape);
    var m := SliceMax(x, row, shape, d, start, stride);
    var sum := SliceTotal(e, x, row, shape, d, start, stride, m);
    SliceSumPositive(e, x, row, shape, d, shape[d]);
    ShiftCancels(e, 0.0, m, sum, SliceSum(e, x, row, shape, d, shape[d]));
    result := was;
    var j := 0;
    while j < shape[d]
      invariant 0 <= j <= shape[d] && |result| == |x|
      invariant forall i :: 0 <= i < j ==> SoftmaxAt(e, x, shape, d, row, i, result)
      invariant forall r, i :: 0 <= r < Size(Drop(shape, d)) && 0 <= i < shape[d] && r != row ==>
        (SoftmaxAt(e, x, shape, d, r, i, was) ==> SoftmaxAt(e, x, shape, d, r, i, result))
    {
      CellInjective(row, j, row, j, shape, d);
      var k := start + Mul(j, stride);
      assert k == Cell(row, j, shape, d);
      ShiftCancels(e, x[k], m, sum, SliceSum(e, x, row, shape, d, shape[d]));
      SoftmaxIs(e, x, shape, d, row, j);
      ghost var before := result;
      result := result[k := e(x[k] - m) / sum];
      SoftmaxKept(e, x, shape, d, row, j, before, result);
      j := j + 1;
    }
  }

  /** Filling one cell does not disturb the others. */
  lemma SoftmaxKept(e: real -> real, x: seq<real>, shape: Shape, d: nat, row: nat, j: nat, was: seq<real>, now: seq<real>)
    requires IsExp(e) && d < |shape| && row < Size(Drop(shape, d)) && j < shape[d] && |x| == |was| == |now| == Size(shape)
    requires Cell(row, j, shape, d) < |was| && now == was[Cell(row, j, shape, d) := Softmax(e, x, shape, d, row, j)]
    ensures SoftmaxAt(e, x, shape, d, row, j, now)
    ensures forall r, i :: 0 <= r < Size(Drop(shape, d)) && 0 <= i < shape[d] ==>
      (SoftmaxAt(e, x, shape, d, r, i, was) ==> SoftmaxAt(e, x, shape, d, r, i, now))
  {
    hide Softmax, Cell, IsExp;
    CellInjective(row, j, row, j, shape, d);
    forall r, i | 0 <= r < Size(Drop(shape, d)) && 0 <= i < shape[d]
      ensures SoftmaxAt(e, x, shape, d, r, i, was) ==> SoftmaxAt(e, x, shape, d, r, i, now)
    {
      CellInjective(row, j, r, i, shape, d);
      CellInjective(r, i, r, i, shape, d);
    }
  }
}
