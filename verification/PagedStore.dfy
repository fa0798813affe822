/**
 The shared key/value pool as one flat array: where an element of a slot lives, how a warp scatters
 a token into its slot, and how a sequence is read back through its block table.
 */
module PagedStore {
  import opened Tokens
  import opened IndexMaps
  import opened CacheSpec

  /** Layers, blocks, key/value heads, columns per head, tokens per block. */
  datatype Geometry = Geometry(layers: nat, blocks: nat, nkv: nat, hd: nat, bs: nat)

  const KEY: nat := 0
  const VALUE: nat := 1

  function Dims(g: Geometry): Shape {
    [g.layers, g.blocks, 2, g.nkv, g.bs, g.hd]
  }

  /** One element: layer, block, key or value, head, slot in the block, column. */
  datatype Spot = Spot(layer: nat, block: nat, kind: nat, head: nat, slot: nat, d: nat)
  {
    function Coords(): seq<nat> { [layer, block, kind, head, slot, d] }
  }

  predicate Inside(g: Geometry, x: Spot) {
    x.layer < g.layers && x.block < g.blocks && x.kind < 2 && x.head < g.nkv && x.slot < g.bs && x.d < g.hd
  }

  /** Elements of a block, keys and values together, and of a layer. */
  function BlockElems(g: Geometry): nat {
    2 * (g.nkv * (g.bs * g.hd))
  }

  function LayerElems(g: Geometry): nat {
    g.blocks * BlockElems(g)
  }

  /** The address as the kernels compute it. */
  function Address(g: Geometry, x: Spot): nat {
    x.layer * LayerElems(g) + x.block * BlockElems(g) + x.kind * (g.nkv * (g.bs * g.hd)) + x.head * (g.bs * g.hd) + x.slot * g.hd + x.d
  }

  lemma AddressIsLinear(g: Geometry, x: Spot)
    ensures Address(g, x) == Linear(x.Coords(), Dims(g))
    ensures Size(Dims(g)) == g.layers * LayerElems(g)
  {
    var c, s := x.Coords(), Dims(g);
    hide Linear, Size;
    assert c[0..] == c && s[0..] == s;
    LinearFirst(c, s, 0); SizeFirst(s, 0);
    LinearFirst(c, s, 1); SizeFirst(s, 1);
    LinearFirst(c, s, 2); SizeFirst(s, 2);
    LinearFirst(c, s, 3); SizeFirst(s, 3);
    LinearFirst(c, s, 4); SizeFirst(s, 4);
    LinearFirst(c, s, 5); SizeFirst(s, 5);
    EmptyLinear(c[6..], s[6..]);
    Regroup6(g, x);
  }

  lemma Regroup6(g: Geometry, x: Spot)
    ensures Mul(x.d, 1) == x.d && Mul(g.hd, 1) == g.hd
    ensures Mul(x.slot, g.hd) == x.slot * g.hd && Mul(g.bs, g.hd) == g.bs * g.hd
    ensures Mul(x.head, Mul(g.bs, g.hd)) == x.head * (g.bs * g.hd)
    ensures Mul(x.kind, Mul(g.nkv, Mul(g.bs, g.hd))) == x.kind * (g.nkv * (g.bs * g.hd))
    ensures Mul(x.block, Mul(2, Mul(g.nkv, Mul(g.bs, g.hd)))) == x.block * BlockElems(g)
    ensures Mul(x.layer, Mul(g.blocks, Mul(2, Mul(g.nkv, Mul(g.bs, g.hd))))) == x.layer * LayerElems(g)
    ensures Mul(g.layers, Mul(g.blocks, Mul(2, Mul(g.nkv, Mul(g.bs, g.hd))))) == g.layers * LayerElems(g)
  {}

  lemma InsideIn(g: Geometry, x: Spot)
    requires Inside(g, x)
    ensures In(x.Coords(), Dims(g))
  {}

  /** Every element lies inside the pool, and no two share an address. */
  lemma AddressInjective(g: Geometry, x: Spot, y: Spot)
    requires Inside(g, x) && Inside(g, y)
    ensures Address(g, x) < g.layers * LayerElems(g)
    ensures Address(g, x) == Address(g, y) ==> x == y
  {
    hide Linear, Size, Address, LayerElems;
    AddressIsLinear(g, x);
    AddressIsLinear(g, y);
    InsideIn(g, x);
    InsideIn(g, y);
    LinearBound(x.Coords(), Dims(g));
    if Address(g, x) == Address(g, y) {
      LinearInjective(x.Coords(), y.Coords(), Dims(g));
      assert x.Coords()[0] == y.Coords()[0] && x.Coords()[1] == y.Coords()[1] && x.Coords()[2] == y.Coords()[2];
      assert x.Coords()[3] == y.Coords()[3] && x.Coords()[4] == y.Coords()[4] && x.Coords()[5] == y.Coords()[5];
    }
  }

  /** The pool has the right size for its geometry. */
  ghost predicate PoolFits(g: Geometry, pool: seq<int>) {
    |pool| == g.layers * LayerElems(g)
  }

  /** The element at a spot. */
  function At(g: Geometry, pool: seq<int>, x: Spot): int
    requires PoolFits(g, pool) && Inside(g, x)
  {
    AddressInjective(g, x, x);
    pool[Address(g, x)]
  }

  // ---------------------------------------------------------------- a warp writes one token

  const Warp: nat := 32
  /** Elements per vector access. */
  const Step: nat := 4
  const HeadDim: nat := 64

  predicate HeadsFit(nkv: nat) {
    nkv in {1, 2, 4, 8, 16, 32}
  }

  function LanesPerHead(nkv: nat): (n: nat)
    requires HeadsFit(nkv)
    ensures n > 0
  {
    Warp / nkv
  }

  /** The lane that handles column `d` of head `h`. */
  function Owner(nkv: nat, h: nat, d: nat): nat
    requires HeadsFit(nkv)
  {
    h * LanesPerHead(nkv) + Vector(d) % LanesPerHead(nkv)
  }

  lemma LaneHead(nkv: nat, lane: nat)
    requires HeadsFit(nkv) && lane < Warp
    ensures lane / LanesPerHead(nkv) < nkv
  {}

  /** A lane owns exactly the columns its own loop reaches: those whose vector number is its own modulo the lanes of the head. */
  lemma OwnerIff(nkv: nat, lane: nat, h: nat, d: nat)
    requires HeadsFit(nkv) && lane < Warp && h < nkv && d < HeadDim
    ensures Owner(nkv, h, d) < Warp
    ensures Owner(nkv, h, d) == lane
      <==> h == lane / LanesPerHead(nkv) && Vector(d) % LanesPerHead(nkv) == lane % LanesPerHead(nkv)
  {
    var n := LanesPerHead(nkv);
    if nkv == 1 {} else if nkv == 2 {} else if nkv == 4 {} else if nkv == 8 {} else if nkv == 16 {} else {}
  }

  lemma ModGap(v: nat, w: nat, n: nat)
    requires n > 0 && v < w < v + n
    ensures w % n != v % n && (v + n) % n == v % n
  {
    var q, r := Blk(v, n), Off(v, n);
    BlkOff(v, n);
    assert (q + 1) * n == q * n + n;
    DivIs(v + n, n, q + 1);
    DivIs(w, n, if w < q * n + n then q else q + 1);
  }

  lemma ModStep(v: nat, n: nat)
    requires n > 0
    ensures (v + n) % n == v % n
  {
    var q := Blk(v, n);
    BlkOff(v, n);
    assert (q + 1) * n == q * n + n;
    DivIs(v + n, n, q + 1);
  }

  /** Vector number of a column. */
  function Vector(d: nat): nat {
    d / Step
  }

  /** Going on by one stride, a lane meets its next vector; nothing of its own lies between. */
  lemma NextVector(n: nat, r: nat, v: nat, d: nat)
    requires n > 0 && v % n == r
    ensures (v + n) % n == r
    ensures v * Step + Step <= d < (v + n) * Step ==> Vector(d) % n != r
    ensures v * Step <= d < v * Step + Step ==> Vector(d) == v
  {
    ModStep(v, n);
    if v * Step + Step <= d < (v + n) * Step { ModGap(v, Vector(d), n); }
  }

  lemma FirstVector(n: nat, lane: nat, d: nat)
    requires n > 0
    ensures lane % n % n == lane % n < n
    ensures d < lane % n * Step ==> Vector(d) % n != lane % n
  {
    DivBounds(lane, n);
    DivIs(lane % n, n, 0);
    if d < lane % n * Step { DivIs(Vector(d), n, 0); }
  }

  /** What one layer's keys or values of a batch are: heads, then tokens, then columns. */
  predicate SourceFits(g: Geometry, src: seq<int>, n: nat) {
    |src| == g.nkv * (n * g.hd)
  }

  function SourceAt(g: Geometry, src: seq<int>, n: nat, h: nat, t: nat, d: nat): int
    requires SourceFits(g, src, n) && h < g.nkv && t < n && d < g.hd
  {
    SourceBound(g, n, h, t, d);
    src[Place(n, g.hd, h, t, d)]
  }

  /** Offset of a head's token's column in a tensor of heads, `n` tokens and `hd` columns. */
  function Place(n: nat, hd: nat, h: nat, t: nat, d: nat): nat {
    h * (n * hd) + t * hd + d
  }

  lemma SourceBound(g: Geometry, n: nat, h: nat, t: nat, d: nat)
    requires h < g.nkv && t < n && d < g.hd
    ensures Place(n, g.hd, h, t, d) < g.nkv * (n * g.hd)
  {
    MulMono(t + 1, n, g.hd);
    MulMono(h + 1, g.nkv, n * g.hd);
  }

  /** One token of a batch on its way to a slot. */
  datatype Delivery = Delivery(layer: nat, block: nat, slot: nat, ks: seq<int>, vs: seq<int>, n: nat, t: nat)

  predicate Deliverable(g: Geometry, y: Delivery) {
    && HeadsFit(g.nkv) && g.hd == HeadDim && y.layer < g.layers && y.block < g.blocks && y.slot < g.bs && y.t < y.n
    && SourceFits(g, y.ks, y.n) && SourceFits(g, y.vs, y.n)
  }

  predicate Hits(y: Delivery, x: Spot) {
    x.layer == y.layer && x.block == y.block && x.slot == y.slot
  }

  function Delivered(g: Geometry, y: Delivery, x: Spot): int
    requires Deliverable(g, y) && Inside(g, x)
  {
    SourceAt(g, if x.kind == KEY then y.ks else y.vs, y.n, x.head, y.t, x.d)
  }

  /** Columns written once lanes before `lane` are through, and lane `lane` up to column `i` and `c` beyond. */
  predicate Reached(nkv: nat, lane: nat, i: nat, c: nat, h: nat, d: nat)
    requires HeadsFit(nkv)
  {
    || Owner(nkv, h, d) < lane || (Owner(nkv, h, d) == lane && d < i)
    || (h == lane / LanesPerHead(nkv) && i <= d < i + c)
  }

  ghost predicate Progress(g: Geometry, was: seq<int>, now: seq<int>, y: Delivery, lane: nat, i: nat, c: nat) {
    && PoolFits(g, was) && PoolFits(g, now) && Deliverable(g, y)
    && forall x: Spot :: Inside(g, x) ==>
         At(g, now, x) == if Hits(y, x) && Reached(g.nkv, lane, i, c, x.head, x.d) then Delivered(g, y, x) else At(g, was, x)
  }

  /** The token is in its slot, whole, and nothing else has changed. */
  ghost predicate TokenWritten(g: Geometry, was: seq<int>, now: seq<int>, y: Delivery) {
    && PoolFits(g, was) && PoolFits(g, now) && Deliverable(g, y)
    && forall x: Spot :: Inside(g, x) ==> At(g, now, x) == if Hits(y, x) then Delivered(g, y, x) else At(g, was, x)
  }

  lemma ProgressSame(g: Geometry, was: seq<int>, now: seq<int>, y: Delivery, lane: nat, i: nat, c: nat, lane': nat, i': nat, c': nat)
    requires Progress(g, was, now, y, lane, i, c)
    requires forall h, d :: 0 <= h < g.nkv && 0 <= d < g.hd ==>
      (Reached(g.nkv, lane, i, c, h, d) <==> Reached(g.nkv, lane', i', c', h, d))
    ensures Progress(g, was, now, y, lane', i', c')
  {
    hide Reached, Delivered, At, PoolFits;
  }

  lemma EnterLane(nkv: nat, lane: nat, h: nat, d: nat)
    requires HeadsFit(nkv) && lane < Warp && h < nkv && d < HeadDim
    ensures Reached(nkv, lane, 0, 0, h, d) <==> Reached(nkv, lane, lane % LanesPerHead(nkv) * Step, 0, h, d)
  {
    hide Owner, LanesPerHead;
    OwnerIff(nkv, lane, h, d);
    FirstVector(LanesPerHead(nkv), lane, d);
  }

  lemma NextRound(nkv: nat, lane: nat, v: nat, h: nat, d: nat)
    requires HeadsFit(nkv) && lane < Warp && h < nkv && d < HeadDim && v % LanesPerHead(nkv) == lane % LanesPerHead(nkv)
    ensures Reached(nkv, lane, v * Step, Step, h, d) <==> Reached(nkv, lane, (v + LanesPerHead(nkv)) * Step, 0, h, d)
  {
    hide Owner, LanesPerHead;
    OwnerIff(nkv, lane, h, d);
    NextVector(LanesPerHead(nkv), lane % LanesPerHead(nkv), v, d);
  }

  lemma LeaveLane(nkv: nat, lane: nat, i: nat, h: nat, d: nat)
    requires HeadsFit(nkv) && d < HeadDim <= i
    ensures Reached(nkv, lane, i, 0, h, d) <==> Reached(nkv, lane + 1, 0, 0, h, d)
  {}

  /** One element of keys and of values. */
  lemma ElementStep(g: Geometry, was: seq<int>, now: seq<int>, y: Delivery, lane: nat, i: nat, c: nat, next: seq<int>)
    requires Progress(g, was, now, y, lane, i, c) && lane / LanesPerHead(g.nkv) < g.nkv && i + c < g.hd
    requires var (k, v) := (Spot(y.layer, y.block, KEY, lane / LanesPerHead(g.nkv), y.slot, i + c),
                            Spot(y.layer, y.block, VALUE, lane / LanesPerHead(g.nkv), y.slot, i + c));
      && Address(g, k) < |now| && Address(g, v) < |now|
      && next == now[Address(g, k) := Delivered(g, y, k)][Address(g, v) := Delivered(g, y, v)]
    ensures Progress(g, was, next, y, lane, i, c + 1)
  {
    hide Address, LayerElems, Delivered, Owner, LanesPerHead;
    var k, v := Spot(y.layer, y.block, KEY, lane / LanesPerHead(g.nkv), y.slot, i + c), Spot(y.layer, y.block, VALUE, lane / LanesPerHead(g.nkv), y.slot, i + c);
    forall x: Spot | Inside(g, x)
      ensures At(g, next, x) == if Hits(y, x) && Reached(g.nkv, lane, i, c + 1, x.head, x.d) then Delivered(g, y, x) else At(g, was, x)
    {
      AddressInjective(g, x, k);
      AddressInjective(g, x, v);
      assert At(g, now, x) == if Hits(y, x) && Reached(g.nkv, lane, i, c, x.head, x.d) then Delivered(g, y, x) else At(g, was, x);
    }
  }

  /** `paged_write_kernel` for one token: the lanes of a warp, each its vectors of one head. */
  method WriteToken(g: Geometry, pool: array<int>, y: Delivery)
    requires PoolFits(g, pool[..]) && Deliverable(g, y)
    modifies pool
    ensures TokenWritten(g, old(pool[..]), pool[..], y)
  {
    hide Progress, Reached, Delivered, At, Address, LayerElems, LanesPerHead, Owner;
    ghost var was := pool[..];
    WriteStart(g, was, y);
    var n := LanesPerHead(g.nkv);
    var lane := 0;
    while lane < Warp
      invariant 0 <= lane <= Warp && Progress(g, was, pool[..], y, lane, 0, 0)
    {
      forall h, d | 0 <= h < g.nkv && 0 <= d < g.hd
        ensures Reached(g.nkv, lane, 0, 0, h, d) <==> Reached(g.nkv, lane, lane % n * Step, 0, h, d) { EnterLane(g.nkv, lane, h, d); }
      ProgressSame(g, was, pool[..], y, lane, 0, 0, lane, lane % n * Step, 0);
      LaneHead(g.nkv, lane);
      WriteLane(g, pool, y, lane, was);
      lane := lane + 1;
    }
    WriteEnd(g, was, pool[..], y);
  }

  lemma WriteStart(g: Geometry, was: seq<int>, y: Delivery)
    requires PoolFits(g, was) && Deliverable(g, y)
    ensures Progress(g, was, was, y, 0, 0, 0)
  {}

  lemma WriteEnd(g: Geometry, was: seq<int>, now: seq<int>, y: Delivery)
    requires Progress(g, was, now, y, Warp, 0, 0)
    ensures TokenWritten(g, was, now, y)
  {
    hide Owner, At, Delivered, LanesPerHead;
    forall x: Spot | Inside(g, x) ensures At(g, now, x) == if Hits(y, x) then Delivered(g, y, x) else At(g, was, x) {
      OwnerIff(g.nkv, 0, x.head, x.d);
    }
  }

  method WriteLane(g: Geometry, pool: array<int>, y: Delivery, lane: nat, ghost was: seq<int>)
    requires PoolFits(g, pool[..]) && Deliverable(g, y) && lane < Warp && lane / LanesPerHead(g.nkv) < g.nkv
    requires Progress(g, was, pool[..], y, lane, lane % LanesPerHead(g.nkv) * Step, 0)
    modifies pool
    ensures Progress(g, was, pool[..], y, lane + 1, 0, 0)
  {
    hide Progress, Reached, Delivered, At, Address, LayerElems, LanesPerHead, Owner, SourceFits;
    var n := LanesPerHead(g.nkv);
    FirstVector(n, lane, 0);
    var v := lane % n;
    while v * Step < g.hd
      invariant v % n == lane % n && Progress(g, was, pool[..], y, lane, v * Step, 0)
      decreases g.hd - v * Step
    {
      WriteVector(g, pool, y, lane, v, was);
      forall h, d | 0 <= h < g.nkv && 0 <= d < g.hd
        ensures Reached(g.nkv, lane, v * Step, Step, h, d) <==> Reached(g.nkv, lane, (v + n) * Step, 0, h, d) { NextRound(g.nkv, lane, v, h, d); }
      ProgressSame(g, was, pool[..], y, lane, v * Step, Step, lane, (v + n) * Step, 0);
      ModStep(v, n);
      v := v + n;
    }
    forall h, d | 0 <= h < g.nkv && 0 <= d < g.hd
      ensures Reached(g.nkv, lane, v * Step, 0, h, d) <==> Reached(g.nkv, lane + 1, 0, 0, h, d) { LeaveLane(g.nkv, lane, v * Step, h, d); }
    ProgressSame(g, was, pool[..], y, lane, v * Step, 0, lane + 1, 0, 0);
  }

  method WriteVector(g: Geometry, pool: array<int>, y: Delivery, lane: nat, v: nat, ghost was: seq<int>)
    requires Deliverable(g, y) && lane / LanesPerHead(g.nkv) < g.nkv && v * Step < g.hd
    requires Progress(g, was, pool[..], y, lane, v * Step, 0)
    modifies pool
    ensures Progress(g, was, pool[..], y, lane, v * Step, Step)
  {
    hide Reached, At, Address, LayerElems, LanesPerHead, Owner, SourceFits, Progress;
    var head := lane / LanesPerHead(g.nkv);
    var c := 0;
    while c < Step
      invariant 0 <= c <= Step && Progress(g, was, pool[..], y, lane, v * Step, c)
    {
      var key, value := Spot(y.layer, y.block, KEY, head, y.slot, v * Step + c), Spot(y.layer, y.block, VALUE, head, y.slot, v * Step + c);
      ProgressSize(g, was, pool[..], y, lane, v * Step, c);
      AddressInjective(g, key, value);
      AddressInjective(g, value, key);
      ghost var before := pool[..];
      pool[Address(g, key)] := SourceAt(g, y.ks, y.n, head, y.t, v * Step + c);
      pool[Address(g, value)] := SourceAt(g, y.vs, y.n, head, y.t, v * Step + c);
      assert pool[..] == before[Address(g, key) := Delivered(g, y, key)][Address(g, value) := Delivered(g, y, value)];
      ElementStep(g, was, before, y, lane, v * Step, c, pool[..]);
      c := c + 1;
    }
  }

  lemma ProgressSize(g: Geometry, was: seq<int>, now: seq<int>, y: Delivery, lane: nat, i: nat, c: nat)
    requires Progress(g, was, now, y, lane, i, c)
    ensures |now| == g.layers * LayerElems(g)
  {}
}
