/** How many elements a tensor has: as many as there are index tuples of its shape. */
module TensorSize {
  import opened Basics
  import opened Header
  import I = IndexMaps

  /** `ts` are exactly the index tuples of `shape`. */
  ghost predicate TuplesOf(shape: seq<nat>, ts: set<seq<nat>>) {
    forall c :: c in ts <==> I.In(c, shape)
  }

  /** Every tuple of `ts` extended by every number below `n`. */
  function Layers(ts: set<seq<nat>>, n: nat): (r: set<seq<nat>>)
    ensures forall c :: c in r <==> c != [] && c[..|c| - 1] in ts && c[|c| - 1] < n
  {
    if n == 0 then {} else Layers(ts, n - 1) + Layer(ts, n - 1)
  }

  function Layer(ts: set<seq<nat>>, x: nat): (r: set<seq<nat>>)
    ensures forall c :: c in r <==> c != [] && c[..|c| - 1] in ts && c[|c| - 1] == x
  {
    var r := set c | c in ts :: c + [x];
    assert forall c :: c in r ==> c[..|c| - 1] in ts && c[|c| - 1] == x;
    assert forall c: seq<nat> :: c != [] && c[..|c| - 1] in ts && c[|c| - 1] == x ==> c == c[..|c| - 1] + [x];
    r
  }

  /** `d` is `c` with `x` at the end. */
  lemma LastOf(c: seq<nat>, x: nat, d: seq<nat>)
    ensures d == c + [x] <==> d != [] && d[..|d| - 1] == c && d[|d| - 1] == x
  {
    if d != [] && d[..|d| - 1] == c && d[|d| - 1] == x { assert d == d[..|d| - 1] + [d[|d| - 1]]; }
  }

  lemma LayerLess(ts: set<seq<nat>>, c: seq<nat>, x: nat)
    requires c in ts
    ensures Layer(ts, x) == Layer(ts - {c}, x) + {c + [x]} && c + [x] !in Layer(ts - {c}, x)
  {
    hide Layer;
    forall d ensures d in Layer(ts, x) <==> d in Layer(ts - {c}, x) || d == c + [x] { LastOf(c, x, d); }
    LastOf(c, x, c + [x]);
  }

  lemma AddOne(s: set<seq<nat>>, d: seq<nat>)
    requires d !in s
    ensures |s + {d}| == |s| + 1
  {}

  lemma {:induction false} LayerSize(ts: set<seq<nat>>, x: nat)
    ensures |Layer(ts, x)| == |ts|
    decreases |ts|
  {
    hide Layer;
    if ts != {} {
      var c :| c in ts;
      LayerLess(ts, c, x);
      LayerSize(ts - {c}, x);
      AddOne(Layer(ts - {c}, x), c + [x]);
      AddOne(ts - {c}, c);
      assert ts == (ts - {c}) + {c};
    } else {
      assert forall d :: d !in Layer(ts, x);
      assert Layer(ts, x) == {};
    }
  }

  lemma Apart(a: set<seq<nat>>, b: set<seq<nat>>)
    requires a !! b
    ensures |a + b| == |a| + |b|
  {}

  lemma LayersApart(ts: set<seq<nat>>, n: nat)
    ensures Layers(ts, n) !! Layer(ts, n)
  {
    hide Layers, Layer;
  }

  lemma {:induction false} LayersSize(ts: set<seq<nat>>, n: nat)
    ensures |Layers(ts, n)| == |ts| * n
  {
    hide Layers, Layer;
    LayersNext(ts, n);
    if n > 0 {
      LayersSize(ts, n - 1);
      LayerSize(ts, n - 1);
      LayersApart(ts, n - 1);
      Apart(Layers(ts, n - 1), Layer(ts, n - 1));
      Times(|ts|, n);
    }
  }

  lemma Times(a: nat, n: nat)
    requires n > 0
    ensures a * (n - 1) + a == a * n
  {}

  lemma LayersNext(ts: set<seq<nat>>, n: nat)
    ensures Layers(ts, n) == if n == 0 then {} else Layers(ts, n - 1) + Layer(ts, n - 1)
  {}

  function Tuples(shape: seq<nat>): (ts: set<seq<nat>>)
    ensures TuplesOf(shape, ts)
  {
    if shape == [] then
      assert forall c: seq<nat> :: I.In(c, []) <==> c == [];
      {[]}
    else
      var before, n := shape[..|shape| - 1], shape[|shape| - 1];
      forall c: seq<nat> ensures I.In(c, shape) <==> c != [] && c[..|c| - 1] in Tuples(before) && c[|c| - 1] < n {
        InLast(c, shape);
      }
      Layers(Tuples(before), n)
  }

  lemma InLast(c: seq<nat>, shape: seq<nat>)
    requires shape != []
    ensures I.In(c, shape) <==> c != [] && I.In(c[..|c| - 1], shape[..|shape| - 1]) && c[|c| - 1] < shape[|shape| - 1]
  {
    if c != [] && I.In(c[..|c| - 1], shape[..|shape| - 1]) {
      assert forall i :: 0 <= i < |c| - 1 ==> c[i] == c[..|c| - 1][i] < shape[..|shape| - 1][i] == shape[i];
    }
    if I.In(c, shape) {
      assert forall i :: 0 <= i < |c| - 1 ==> c[..|c| - 1][i] == c[i] < shape[i] == shape[..|shape| - 1][i];
    }
  }

  lemma {:induction false} TuplesCount(shape: seq<nat>)
    ensures |Tuples(shape)| == Numel(shape) == I.Size(shape)
    decreases |shape|
  {
    if shape != [] {
      TuplesCount(shape[..|shape| - 1]);
      LayersSize(Tuples(shape[..|shape| - 1]), shape[|shape| - 1]);
    }
  }

  /** The product of the dimensions is the number of index tuples, and the row-major size. */
  lemma NumelIsCount(shape: seq<nat>, ts: set<seq<nat>>)
    requires TuplesOf(shape, ts)
    ensures Numel(shape) == |ts| == I.Size(shape)
  {
    TuplesCount(shape);
    assert ts == Tuples(shape);
  }

  /** The bytes a span has to have: four for each element of type `F32`, two for each of type `BF16`. */
  ghost predicate SpanFits(f: Fields) {
    && f.dtype.Some? && f.shape.Some? && f.offsets.Some?
    && var (start, end) := f.offsets.value;
       match f.dtype.value
       case Float32 => end - start == 4 * I.Size(f.shape.value)
       case BFloat16 => end - start == 2 * I.Size(f.shape.value)
  }

  /** What is stored for a descriptor whose span fits. */
  ghost function MetaFor(f: Fields, dataStart: nat): Meta
    requires SpanFits(f)
  {
    Meta(dataStart + f.offsets.value.0, f.shape.value, f.dtype.value)
  }

  lemma FinishIff(f: Fields, dataStart: nat)
    ensures Finish(f, dataStart).Some? <==> SpanFits(f)
    ensures SpanFits(f) ==> Finish(f, dataStart) == Some(MetaFor(f, dataStart))
  {
    if f.shape.Some? { TuplesCount(f.shape.value); }
  }
}
