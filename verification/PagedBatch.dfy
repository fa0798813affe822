/**
 A batch of sequences over the shared pool: the slot of every new token, the padded block tables and
 length sums handed to the kernels, the scatter of the whole batch, and reading a sequence back.
 */
module PagedBatch {
  import opened Basics
  import opened Tokens
  import opened IndexMaps
  import opened CacheSpec
  import opened PagedStore

  /** Where the tokens of each sequence lie in the batch: `cu[s]` to `cu[s + 1]`. */
  ghost predicate Segments(cu: seq<nat>, n: nat) {
    && |cu| == n + 1 && cu[0] == 0
    && forall s, t :: 0 <= s <= t <= n ==> cu[s] <= cu[t]
  }

  function Length(cu: seq<nat>, s: nat): int
    requires s + 1 < |cu|
  {
    var end: int := cu[s + 1];
    end - cu[s]
  }

  /** The sequence a token of the batch belongs to. */
  lemma SegmentOf(cu: seq<nat>, n: nat, t: nat) returns (s: nat)
    requires Segments(cu, n) && t < cu[n]
    ensures s < n && cu[s] <= t < cu[s + 1]
  {
    s := 0;
    while cu[s + 1] <= t
      invariant s < n && cu[s] <= t
      decreases n - s
    {
      if s + 1 == n { assert false; }
      s := s + 1;
    }
  }

  /** After its metadata, every cache covers its cursor, and the batch's tokens are its last ones. */
  ghost predicate BatchOk(caches: seq<Kv>, cu: seq<nat>, bs: nat)
    requires bs > 0
  {
    && Segments(cu, |caches|)
    && forall s {:trigger caches[s]} :: 0 <= s < |caches| ==>
         Length(cu, s) <= caches[s].cursor && CeilDiv(caches[s].cursor, bs) <= |caches[s].table|
  }

  // ---------------------------------------------------------------- positions and slots

  /** Position, in its sequence, of token `i` of sequence `s`. */
  function Position(caches: seq<Kv>, cu: seq<nat>, s: nat, i: nat): int
    requires s < |caches| && s + 1 < |cu|
  {
    caches[s].cursor - Length(cu, s) + i
  }

  /** The part of a batch-wide list that belongs to sequence `s`. */
  function Part<T>(a: seq<T>, cu: seq<nat>, s: nat): seq<T>
    requires s + 1 < |cu| && cu[s] <= cu[s + 1] <= |a|
  {
    a[cu[s]..cu[s + 1]]
  }

  lemma PartKept<T>(a: seq<T>, more: seq<T>, cu: seq<nat>, n: nat, r: nat, s: nat)
    requires Segments(cu, n) && r < s <= n && |a| == cu[s]
    ensures cu[r] <= cu[r + 1] <= |a| && Part(a + more, cu, r) == Part(a, cu, r)
  {}

  lemma PartNew<T>(a: seq<T>, more: seq<T>, cu: seq<nat>, n: nat, s: nat)
    requires Segments(cu, n) && s < n && |a| == cu[s] && |more| == Length(cu, s)
    ensures |a + more| == cu[s + 1] && Part(a + more, cu, s) == more
  {}

  /** Consecutive positions from `from`. */
  function Run(from: nat, len: nat): (r: seq<nat>)
    ensures |r| == len
  {
    seq(len, i requires 0 <= i < len => from + i)
  }

  ghost predicate Positioned(before: seq<nat>, cu: seq<nat>, positions: seq<nat>, n: nat)
    requires Segments(cu, |before|) && n <= |before|
  {
    && |positions| == cu[n]
    && forall s {:trigger before[s]} :: 0 <= s < n ==>
         cu[s] <= cu[s + 1] <= |positions| && Part(positions, cu, s) == Run(before[s], Length(cu, s))
  }

  lemma PositionedMore(before: seq<nat>, cu: seq<nat>, positions: seq<nat>, s: nat, more: seq<nat>)
    requires Segments(cu, |before|) && s < |before| && Positioned(before, cu, positions, s)
    requires Length(cu, s) >= 0 && more == Run(before[s], Length(cu, s))
    ensures Positioned(before, cu, positions + more, s + 1)
  {
    hide Run, Part;
    PartNew(positions, more, cu, |before|, s);
    forall r {:trigger before[r]} | 0 <= r < s + 1
      ensures cu[r] <= cu[r + 1] <= |positions + more| && Part(positions + more, cu, r) == Run(before[r], Length(cu, r))
    {
      if r < s { PartKept(positions, more, cu, |before|, r, s); }
    }
  }

  /** Positions given to the model, from the cursors before the metadata step: the next unwritten ones. */
  method Positions(before: seq<nat>, cu: seq<nat>, isDecode: bool) returns (positions: seq<nat>)
    requires Segments(cu, |before|) && (isDecode ==> forall s {:trigger before[s]} :: 0 <= s < |before| ==> Length(cu, s) == 1)
    ensures Positioned(before, cu, positions, |before|)
  {
    hide Positioned;
    positions := [];
    PositionedNone(before, cu);
    var s := 0;
    while s < |before|
      invariant 0 <= s <= |before| && Positioned(before, cu, positions, s)
    {
      var b := before[s];
      var len := cu[s + 1] - cu[s];
      var more := [b];
      if !isDecode {
        more := [];
        var i := 0;
        while i < len
          invariant 0 <= i <= len && more == Run(b, i)
        {
          more := more + [b + i];
          i := i + 1;
        }
      }
      assert more == Run(b, len);
      PositionedMore(before, cu, positions, s, more);
      positions := positions + more;
      s := s + 1;
    }
  }

  lemma PositionedNone(before: seq<nat>, cu: seq<nat>)
    requires Segments(cu, |before|)
    ensures Positioned(before, cu, [], 0)
  {}

  /** The slot of token `i` of sequence `s`. */
  function TokenSlot(caches: seq<Kv>, cu: seq<nat>, bs: nat, s: nat, i: nat): nat
    requires bs > 0 && BatchOk(caches, cu, bs) && s < |caches| && i < Length(cu, s)
  {
    var kv := caches[s];
    PosInTable(Position(caches, cu, s, i), kv.cursor, bs);
    Slot(kv.table, Position(caches, cu, s, i), bs)
  }

  lemma TokenSlotIs(caches: seq<Kv>, cu: seq<nat>, bs: nat, s: nat, i: nat)
    requires bs > 0 && BatchOk(caches, cu, bs) && s < |caches| && i < Length(cu, s)
    ensures var p := Position(caches, cu, s, i);
      && 0 <= p < caches[s].cursor && Blk(p, bs) < |caches[s].table|
      && TokenSlot(caches, cu, bs, s, i) == caches[s].table[Blk(p, bs)] * bs + Off(p, bs)
  {
    var kv := caches[s];
    PosInTable(Position(caches, cu, s, i), kv.cursor, bs);
  }

  /** The slots of the tokens of sequence `s`. */
  ghost function SlotsFor(caches: seq<Kv>, cu: seq<nat>, bs: nat, s: nat): (r: seq<nat>)
    requires bs > 0 && BatchOk(caches, cu, bs) && s < |caches|
    ensures |r| == Length(cu, s)
  {
    seq(Length(cu, s), i requires 0 <= i < Length(cu, s) => TokenSlot(caches, cu, bs, s, i))
  }

  ghost predicate Mapped(caches: seq<Kv>, cu: seq<nat>, bs: nat, slots: seq<nat>, n: nat)
    requires bs > 0 && BatchOk(caches, cu, bs) && n <= |caches|
  {
    && |slots| == cu[n]
    && forall s {:trigger SlotsFor(caches, cu, bs, s)} :: 0 <= s < n ==>
         cu[s] <= cu[s + 1] <= |slots| && Part(slots, cu, s) == SlotsFor(caches, cu, bs, s)
  }

  /** The whole batch's slot mapping. */
  method SlotMapping(caches: seq<Kv>, cu: seq<nat>, bs: nat, isDecode: bool) returns (slots: seq<nat>)
    requires bs > 0 && BatchOk(caches, cu, bs)
    requires isDecode ==> forall s {:trigger caches[s]} :: 0 <= s < |caches| ==> Length(cu, s) == 1
    ensures Mapped(caches, cu, bs, slots, |caches|)
  {
    hide Mapped, SlotsFor, BatchOk;
    slots := [];
    var s := 0;
    MappedNone(caches, cu, bs);
    while s < |caches|
      invariant 0 <= s <= |caches| && Mapped(caches, cu, bs, slots, s)
    {
      BatchSegments(caches, cu, bs);
      var part := SlotsOf(caches, cu, bs, s, isDecode, caches[s]);
      MappedMore(caches, cu, bs, slots, s, part);
      slots := slots + part;
      s := s + 1;
    }
  }

  lemma BatchSegments(caches: seq<Kv>, cu: seq<nat>, bs: nat)
    requires bs > 0 && BatchOk(caches, cu, bs)
    ensures Segments(cu, |caches|)
  {}

  lemma MappedNone(caches: seq<Kv>, cu: seq<nat>, bs: nat)
    requires bs > 0 && BatchOk(caches, cu, bs)
    ensures Mapped(caches, cu, bs, [], 0)
  {}

  lemma MappedMore(caches: seq<Kv>, cu: seq<nat>, bs: nat, slots: seq<nat>, s: nat, part: seq<nat>)
    requires bs > 0 && BatchOk(caches, cu, bs) && s < |caches| && Mapped(caches, cu, bs, slots, s)
    requires part == SlotsFor(caches, cu, bs, s)
    ensures Mapped(caches, cu, bs, slots + part, s + 1)
  {
    BatchSegments(caches, cu, bs);
    hide SlotsFor, Part;
    var more := slots + part;
    PartNew(slots, part, cu, |caches|, s);
    assert |more| == cu[s + 1];
    forall r {:trigger SlotsFor(caches, cu, bs, r)} | 0 <= r < s + 1
      ensures cu[r] <= cu[r + 1] <= |more| && Part(more, cu, r) == SlotsFor(caches, cu, bs, r)
    {
      if r < s {
        assert Part(slots, cu, r) == SlotsFor(caches, cu, bs, r);
        PartKept(slots, part, cu, |caches|, r, s);
      }
    }
  }

  method SlotsOf(caches: seq<Kv>, cu: seq<nat>, bs: nat, s: nat, isDecode: bool, kv: Kv) returns (part: seq<nat>)
    requires bs > 0 && BatchOk(caches, cu, bs) && s < |caches| && (isDecode ==> Length(cu, s) == 1) && kv == caches[s]
    ensures part == SlotsFor(caches, cu, bs, s)
  {
    hide TokenSlot, CeilDiv, Blk, Off, BatchOk;
    BatchSegments(caches, cu, bs);
    var len := cu[s + 1] - cu[s];
    if isDecode {
      TokenSlotIs(caches, cu, bs, s, 0);
      var pos := kv.cursor - 1;
      return [kv.table[Blk(pos, bs)] * bs + Off(pos, bs)];
    }
    part := [];
    var base := kv.cursor - len;
    var i := 0;
    while i < len
      invariant 0 <= i <= len && |part| == i
      invariant forall j :: 0 <= j < i ==> part[j] == TokenSlot(caches, cu, bs, s, j)
    {
      TokenSlotIs(caches, cu, bs, s, i);
      part := part + [kv.table[Blk(base + i, bs)] * bs + Off(base + i, bs)];
      i := i + 1;
    }
  }

  // ---------------------------------------------------------------- padded tables and length sums

  /** A block table padded with zeros. */
  function Padded(table: seq<nat>, n: nat): (r: seq<nat>)
    requires |table| <= n
    ensures |r| == n
  {
    table + seq(n - |table|, _ => 0)
  }

  /** Row `s` of a table with rows of `n`. */
  function Row<T>(table: seq<T>, n: nat, s: nat): seq<T>
    requires Mul(s, n) + n <= |table|
  {
    table[Mul(s, n)..Mul(s, n) + n]
  }

  lemma RowNext(s: nat, n: nat)
    ensures Mul(s + 1, n) == Mul(s, n) + n
  {}

  lemma RowMono(r: nat, s: nat, n: nat)
    requires r < s
    ensures Mul(r, n) + n <= Mul(s, n)
  {
    MulMono(r + 1, s, n);
  }

  ghost predicate Tabled(caches: seq<Kv>, table: seq<nat>, n: nat, k: nat)
    requires k <= |caches| && forall s :: 0 <= s < |caches| ==> |caches[s].table| <= n
  {
    && |table| == Mul(k, n)
    && forall s :: 0 <= s < k ==> Mul(s, n) + n <= |table| && Row(table, n, s) == Padded(caches[s].table, n)
  }

  lemma TabledMore(caches: seq<Kv>, table: seq<nat>, n: nat, k: nat)
    requires k < |caches| && (forall s :: 0 <= s < |caches| ==> |caches[s].table| <= n) && Tabled(caches, table, n, k)
    ensures Tabled(caches, table + Padded(caches[k].table, n), n, k + 1)
  {
    hide Mul;
    var more := table + Padded(caches[k].table, n);
    RowNext(k, n);
    forall s | 0 <= s < k + 1 ensures Mul(s, n) + n <= |more| && Row(more, n, s) == Padded(caches[s].table, n) {
      if s < k {
        RowMono(s, k, n);
        assert Row(more, n, s) == Row(table, n, s);
      }
    }
  }

  /** One row per sequence, padded with zeros to the longest table. */
  method Table2D(caches: seq<Kv>) returns (maxBlocks: nat, table: seq<nat>)
    ensures forall s :: 0 <= s < |caches| ==> |caches[s].table| <= maxBlocks
    ensures maxBlocks == 0 || exists s :: 0 <= s < |caches| && |caches[s].table| == maxBlocks
    ensures Tabled(caches, table, maxBlocks, |caches|)
  {
    hide Mul, Padded;
    maxBlocks := 0;
    var s := 0;
    while s < |caches|
      invariant 0 <= s <= |caches|
      invariant forall r :: 0 <= r < s ==> |caches[r].table| <= maxBlocks
      invariant maxBlocks == 0 || exists r :: 0 <= r < s && |caches[r].table| == maxBlocks
    {
      if maxBlocks < |caches[s].table| {
        maxBlocks := |caches[s].table|;
      }
      s := s + 1;
    }
    table := [];
    s := 0;
    MulFacts(0, maxBlocks);
    while s < |caches|
      invariant 0 <= s <= |caches| && Tabled(caches, table, maxBlocks, s)
    {
      TabledMore(caches, table, maxBlocks, s);
      table := table + Padded(caches[s].table, maxBlocks);
      s := s + 1;
    }
  }

  /** Running sums of the cursors after the metadata step. */
  method CuSeqlensK(caches: seq<Kv>) returns (cu: seq<nat>, maxSeqlen: nat)
    ensures |cu| == |caches| + 1 && cu[0] == 0
    ensures forall s {:trigger caches[s]} :: 0 <= s < |caches| ==> cu[s + 1] == cu[s] + caches[s].cursor && caches[s].cursor <= maxSeqlen
  {
    cu, maxSeqlen := [0], 0;
    var s := 0;
    while s < |caches|
      invariant 0 <= s <= |caches| && |cu| == s + 1 && cu[0] == 0
      invariant forall r {:trigger caches[r]} :: 0 <= r < s ==> cu[r + 1] == cu[r] + caches[r].cursor && caches[r].cursor <= maxSeqlen
    {
      cu := cu + [cu[s] + caches[s].cursor];
      if maxSeqlen < caches[s].cursor {
        maxSeqlen := caches[s].cursor;
      }
      s := s + 1;
    }
  }

  // ---------------------------------------------------------------- the scatter of a batch

  /** One layer's keys and values of the batch. */
  datatype Rows = Rows(ks: seq<int>, vs: seq<int>, n: nat)

  predicate RowsFit(g: Geometry, rows: Rows) {
    SourceFits(g, rows.ks, rows.n) && SourceFits(g, rows.vs, rows.n)
  }

  function Element(g: Geometry, rows: Rows, t: nat, kind: nat, h: nat, d: nat): int
    requires RowsFit(g, rows) && t < rows.n && h < g.nkv && d < g.hd
  {
    SourceAt(g, if kind == KEY then rows.ks else rows.vs, rows.n, h, t, d)
  }

  predicate SlotsFit(g: Geometry, slots: seq<nat>) {
    g.bs > 0 && forall t :: 0 <= t < |slots| ==> Blk(slots[t], g.bs) < g.blocks
  }

  /** Spot `x` belongs to slot `slot` of the layer. */
  predicate OfSlot(g: Geometry, layer: nat, slot: nat, x: Spot)
    requires g.bs > 0
  {
    x.layer == layer && x.block == Blk(slot, g.bs) && x.slot == Off(slot, g.bs)
  }

  /** The first `n` tokens are in their slots and everything else is as before. */
  ghost predicate Scattered(g: Geometry, was: seq<int>, now: seq<int>, layer: nat, slots: seq<nat>, rows: Rows, n: nat)
    requires SlotsFit(g, slots) && RowsFit(g, rows) && n <= |slots| == rows.n
  {
    && PoolFits(g, was) && PoolFits(g, now)
    && (forall t, x: Spot :: 0 <= t < n && Inside(g, x) && OfSlot(g, layer, slots[t], x) ==>
          At(g, now, x) == Element(g, rows, t, x.kind, x.head, x.d))
    && (forall x: Spot :: Inside(g, x) && (forall t :: 0 <= t < n ==> !OfSlot(g, layer, slots[t], x)) ==> At(g, now, x) == At(g, was, x))
  }

  lemma SameSlot(g: Geometry, layer: nat, a: nat, b: nat, x: Spot)
    requires g.bs > 0 && OfSlot(g, layer, a, x) && OfSlot(g, layer, b, x)
    ensures a == b
  {
    BlkOffDistinct(a, b, g.bs);
  }

  /** Spot `x` holds its element of token `t`. */
  ghost predicate From(g: Geometry, now: seq<int>, layer: nat, slots: seq<nat>, rows: Rows, t: nat, x: Spot)
    requires SlotsFit(g, slots) && RowsFit(g, rows) && t < |slots| == rows.n && PoolFits(g, now) && Inside(g, x)
  {
    OfSlot(g, layer, slots[t], x) && At(g, now, x) == Element(g, rows, t, x.kind, x.head, x.d)
  }

  /** Each spot of a slot written among the first `n` holds its element of one of the tokens sent there; the rest is as before. */
  ghost predicate Landed(g: Geometry, was: seq<int>, now: seq<int>, layer: nat, slots: seq<nat>, rows: Rows, n: nat)
    requires SlotsFit(g, slots) && RowsFit(g, rows) && n <= |slots| == rows.n
  {
    && PoolFits(g, was) && PoolFits(g, now)
    && forall x: Spot :: Inside(g, x) ==>
         (exists t: nat :: t < n && From(g, now, layer, slots, rows, t, x))
         || ((forall t :: 0 <= t < n ==> !OfSlot(g, layer, slots[t], x)) && At(g, now, x) == At(g, was, x))
  }

  lemma LandStep(g: Geometry, was: seq<int>, mid: seq<int>, now: seq<int>, layer: nat, slots: seq<nat>, rows: Rows, n: nat)
    requires SlotsFit(g, slots) && RowsFit(g, rows) && n < |slots| == rows.n
    requires Landed(g, was, mid, layer, slots, rows, n)
    requires TokenWritten(g, mid, now, Delivery(layer, Blk(slots[n], g.bs), Off(slots[n], g.bs), rows.ks, rows.vs, rows.n, n))
    ensures Landed(g, was, now, layer, slots, rows, n + 1)
  {
    hide At, PoolFits, SourceAt, SourceFits, Blk, Off;
    var y := Delivery(layer, Blk(slots[n], g.bs), Off(slots[n], g.bs), rows.ks, rows.vs, rows.n, n);
    forall x: Spot | Inside(g, x)
      ensures (exists t: nat :: t < n + 1 && From(g, now, layer, slots, rows, t, x))
        || ((forall t :: 0 <= t < n + 1 ==> !OfSlot(g, layer, slots[t], x)) && At(g, now, x) == At(g, was, x))
    {
      assert Hits(y, x) <==> OfSlot(g, layer, slots[n], x);
      if OfSlot(g, layer, slots[n], x) {
        assert From(g, now, layer, slots, rows, n, x);
      } else if t: nat :| t < n && From(g, mid, layer, slots, rows, t, x) {
        assert From(g, now, layer, slots, rows, t, x);
      }
    }
  }

  /** When no slot is given twice there is only one token it can be. */
  lemma LandedOnce(g: Geometry, was: seq<int>, now: seq<int>, layer: nat, slots: seq<nat>, rows: Rows)
    requires SlotsFit(g, slots) && RowsFit(g, rows) && |slots| == rows.n && NoDup(slots)
    requires Landed(g, was, now, layer, slots, rows, |slots|)
    ensures Scattered(g, was, now, layer, slots, rows, |slots|)
  {
    hide At, PoolFits, SourceAt, SourceFits, Blk, Off, OfSlot;
    forall t, x: Spot | 0 <= t < |slots| && Inside(g, x) && OfSlot(g, layer, slots[t], x)
      ensures At(g, now, x) == Element(g, rows, t, x.kind, x.head, x.d)
    {
      var u: nat :| u < |slots| && From(g, now, layer, slots, rows, u, x);
      SameSlot(g, layer, slots[t], slots[u], x);
    }
  }

  /**
   `paged_write`: one warp per token. With a slot given twice it holds, element by element, one of
   the tokens sent there; the block tables keep slots inside the pool.
   */
  method PagedWrite(g: Geometry, pool: array<int>, layer: nat, rows: Rows, slots: seq<nat>)
    requires HeadsFit(g.nkv) && g.hd == HeadDim && layer < g.layers && PoolFits(g, pool[..])
    requires SlotsFit(g, slots) && RowsFit(g, rows) && |slots| == rows.n
    modifies pool
    ensures Landed(g, old(pool[..]), pool[..], layer, slots, rows, |slots|)
    ensures NoDup(slots) ==> Scattered(g, old(pool[..]), pool[..], layer, slots, rows, |slots|)
  {
    hide Landed, Scattered, TokenWritten, At, PoolFits, SourceFits, Blk, Off;
    ghost var was := pool[..];
    LandStart(g, was, layer, slots, rows);
    var t := 0;
    while t < |slots|
      invariant 0 <= t <= |slots| && Landed(g, was, pool[..], layer, slots, rows, t) && PoolFits(g, pool[..])
    {
      ghost var mid := pool[..];
      var slotId := slots[t];
      var y := Delivery(layer, Blk(slotId, g.bs), Off(slotId, g.bs), rows.ks, rows.vs, rows.n, t);
      WriteToken(g, pool, y);
      LandStep(g, was, mid, pool[..], layer, slots, rows, t);
      WrittenFits(g, mid, pool[..], y);
      t := t + 1;
    }
    if NoDup(slots) { LandedOnce(g, was, pool[..], layer, slots, rows); }
  }

  lemma LandStart(g: Geometry, was: seq<int>, layer: nat, slots: seq<nat>, rows: Rows)
    requires SlotsFit(g, slots) && RowsFit(g, rows) && |slots| == rows.n && PoolFits(g, was)
    ensures Landed(g, was, was, layer, slots, rows, 0)
  {}

  lemma WrittenFits(g: Geometry, was: seq<int>, now: seq<int>, y: Delivery)
    requires TokenWritten(g, was, now, y)
    ensures PoolFits(g, now)
  {}

  // ---------------------------------------------------------------- what a sequence holds

  /** One token's keys and values in one layer: by kind, head and column. */
  datatype TokenRow = TokenRow(at: (nat, nat, nat) -> int)

  function SpotOf(layer: nat, table: seq<nat>, bs: nat, p: nat, kind: nat, h: nat, d: nat): Spot
    requires bs > 0 && Blk(p, bs) < |table|
  {
    Spot(layer, table[Blk(p, bs)], kind, h, Off(p, bs), d)
  }

  ghost predicate TableFits(g: Geometry, table: seq<nat>, n: nat)
  {
    g.bs > 0 && forall p {:trigger Blk(p, g.bs)} :: 0 <= p < n ==> Blk(p, g.bs) < |table| && table[Blk(p, g.bs)] < g.blocks
  }

  /** Read through its block table, the sequence holds these rows. */
  ghost predicate Holds(g: Geometry, pool: seq<int>, layer: nat, table: seq<nat>, rows: seq<TokenRow>) {
    && PoolFits(g, pool) && layer < g.layers && TableFits(g, table, |rows|)
    && forall p, kind, h, d :: 0 <= p < |rows| && 0 <= kind < 2 && 0 <= h < g.nkv && 0 <= d < g.hd ==>
         Blk(p, g.bs) < |table| && Inside(g, SpotOf(layer, table, g.bs, p, kind, h, d))
         && At(g, pool, SpotOf(layer, table, g.bs, p, kind, h, d)) == rows[p].at(kind, h, d)
  }

  /** The rows of the batch that belong to one sequence. */
  function NewRows(g: Geometry, rows: Rows, from: nat, len: nat): (r: seq<TokenRow>)
    requires RowsFit(g, rows) && from + len <= rows.n
    ensures |r| == len
  {
    seq(len, i requires 0 <= i < len => RowOf(g, rows, from + i))
  }

  function RowOf(g: Geometry, rows: Rows, t: nat): TokenRow
    requires RowsFit(g, rows) && t < rows.n
  {
    TokenRow((kind: nat, h: nat, d: nat) => if h < g.nkv && d < g.hd then Element(g, rows, t, kind, h, d) else 0)
  }

  /** No token of the batch goes to a slot of the first `n` positions of `table`. */
  ghost predicate Apart(g: Geometry, slots: seq<nat>, table: seq<nat>, n: nat)
    requires TableFits(g, table, n)
  {
    forall t, p {:trigger slots[t], Blk(p, g.bs)} :: 0 <= t < |slots| && 0 <= p < n && Blk(p, g.bs) < |table| ==> slots[t] != Slot(table, p, g.bs)
  }

  lemma SlotOfSpot(g: Geometry, layer: nat, table: seq<nat>, p: nat, slot: nat, x: Spot)
    requires g.bs > 0 && Blk(p, g.bs) < |table| && x.layer == layer && x.block == table[Blk(p, g.bs)] && x.slot == Off(p, g.bs)
    ensures OfSlot(g, layer, slot, x) <==> slot == Slot(table, p, g.bs)
  {
    var own := Slot(table, p, g.bs);
    BlkOffOf(table[Blk(p, g.bs)], Off(p, g.bs), g.bs);
    hide Blk, Off;
    if OfSlot(g, layer, slot, x) { BlkOffDistinct(slot, own, g.bs); }
  }

  /** A sequence none of whose slots is written keeps what it holds. */
  lemma HoldsKept(g: Geometry, was: seq<int>, now: seq<int>, layer: nat, slots: seq<nat>, rows: Rows, table: seq<nat>, old': seq<TokenRow>)
    requires SlotsFit(g, slots) && RowsFit(g, rows) && |slots| == rows.n && Scattered(g, was, now, layer, slots, rows, |slots|)
    requires Holds(g, was, layer, table, old') && Apart(g, slots, table, |old'|)
    ensures Holds(g, now, layer, table, old')
  {
    hide At, PoolFits, Blk, Off, SourceAt, SourceFits, Slot;
    forall p, kind, h, d | 0 <= p < |old'| && 0 <= kind < 2 && 0 <= h < g.nkv && 0 <= d < g.hd
      ensures Blk(p, g.bs) < |table| && Inside(g, SpotOf(layer, table, g.bs, p, kind, h, d))
      ensures At(g, now, SpotOf(layer, table, g.bs, p, kind, h, d)) == old'[p].at(kind, h, d)
    {
      var x := SpotOf(layer, table, g.bs, p, kind, h, d);
      forall t | 0 <= t < |slots| ensures !OfSlot(g, layer, slots[t], x) {
        SlotOfSpot(g, layer, table, p, slots[t], x);
      }
    }
  }

  /** Writing the batch appends to every sequence exactly its new rows, and disturbs no other position. */
  lemma BatchHolds(g: Geometry, was: seq<int>, now: seq<int>, layer: nat, caches: seq<Kv>, cu: seq<nat>, slots: seq<nat>, rows: Rows, s: nat, old': seq<TokenRow>)
    requires g.bs > 0 && BatchOk(caches, cu, g.bs) && Mapped(caches, cu, g.bs, slots, |caches|) && s < |caches|
    requires SlotsFit(g, slots) && RowsFit(g, rows) && |slots| == rows.n && Scattered(g, was, now, layer, slots, rows, |slots|)
    requires |old'| + Length(cu, s) == caches[s].cursor && TableFits(g, caches[s].table, caches[s].cursor)
    requires Holds(g, was, layer, caches[s].table, old') && Apart(g, slots, caches[s].table, |old'|)
    ensures cu[s] + Length(cu, s) <= rows.n
    ensures Holds(g, now, layer, caches[s].table, old' + NewRows(g, rows, cu[s], Length(cu, s)))
  {
    hide At, PoolFits, SourceAt, SourceFits, Mapped, BatchOk, CeilDiv;
    HoldsKept(g, was, now, layer, slots, rows, caches[s].table, old');
    BatchSegments(caches, cu, g.bs);
    MappedSize(caches, cu, g.bs, slots);
    var table := caches[s].table;
    var new' := NewRows(g, rows, cu[s], Length(cu, s));
    forall p, kind, h, d | 0 <= p < |old' + new'| && 0 <= kind < 2 && 0 <= h < g.nkv && 0 <= d < g.hd
      ensures Blk(p, g.bs) < |table| && Inside(g, SpotOf(layer, table, g.bs, p, kind, h, d))
      ensures At(g, now, SpotOf(layer, table, g.bs, p, kind, h, d)) == (old' + new')[p].at(kind, h, d)
    {
      if p >= |old'| {
        NewRowAt(g, rows, cu[s], Length(cu, s), p - |old'|, kind, h, d);
        NewRowWritten(g, was, now, layer, caches, cu, slots, rows, s, p - |old'|, kind, h, d);
      }
    }
  }

  lemma NewRowAt(g: Geometry, rows: Rows, from: nat, len: nat, i: nat, kind: nat, h: nat, d: nat)
    requires RowsFit(g, rows) && from + len <= rows.n && i < len && h < g.nkv && d < g.hd
    ensures NewRows(g, rows, from, len)[i].at(kind, h, d) == Element(g, rows, from + i, kind, h, d)
  {
    hide Element, SourceFits;
    assert NewRows(g, rows, from, len)[i] == RowOf(g, rows, from + i);
  }

  lemma MappedSize(caches: seq<Kv>, cu: seq<nat>, bs: nat, slots: seq<nat>)
    requires bs > 0 && BatchOk(caches, cu, bs) && Mapped(caches, cu, bs, slots, |caches|)
    ensures |slots| == cu[|caches|]
  {}

  lemma MappedAt(caches: seq<Kv>, cu: seq<nat>, bs: nat, slots: seq<nat>, s: nat, i: nat)
    requires bs > 0 && BatchOk(caches, cu, bs) && Mapped(caches, cu, bs, slots, |caches|) && s < |caches| && i < Length(cu, s)
    ensures cu[s] + i < |slots| && slots[cu[s] + i] == TokenSlot(caches, cu, bs, s, i)
  {
    assert Part(slots, cu, s) == SlotsFor(caches, cu, bs, s);
    assert Part(slots, cu, s)[i] == SlotsFor(caches, cu, bs, s)[i];
  }

  lemma NewRowWritten(g: Geometry, was: seq<int>, now: seq<int>, layer: nat, caches: seq<Kv>, cu: seq<nat>, slots: seq<nat>, rows: Rows,
                      s: nat, i: nat, kind: nat, h: nat, d: nat)
    requires g.bs > 0 && BatchOk(caches, cu, g.bs) && Mapped(caches, cu, g.bs, slots, |caches|) && s < |caches| && i < Length(cu, s)
    requires SlotsFit(g, slots) && RowsFit(g, rows) && |slots| == rows.n && Scattered(g, was, now, layer, slots, rows, |slots|)
    requires layer < g.layers && TableFits(g, caches[s].table, caches[s].cursor) && kind < 2 && h < g.nkv && d < g.hd
    ensures cu[s] + i < rows.n
    ensures var p := caches[s].cursor - Length(cu, s) + i;
      && 0 <= p && Blk(p, g.bs) < |caches[s].table| && Inside(g, SpotOf(layer, caches[s].table, g.bs, p, kind, h, d))
      && At(g, now, SpotOf(layer, caches[s].table, g.bs, p, kind, h, d)) == Element(g, rows, cu[s] + i, kind, h, d)
  {
    hide At, PoolFits, SourceAt, SourceFits, Mapped, CeilDiv, TokenSlot, Slot;
    TokenSlotIs(caches, cu, g.bs, s, i);
    MappedAt(caches, cu, g.bs, slots, s, i);
    var p := Position(caches, cu, s, i);
    var x := SpotOf(layer, caches[s].table, g.bs, p, kind, h, d);
    SlotIs(caches[s].table, p, g.bs);
    SlotOfSpot(g, layer, caches[s].table, p, slots[cu[s] + i], x);
  }

  lemma SlotIs(table: seq<nat>, p: nat, bs: nat)
    requires bs > 0 && Blk(p, bs) < |table|
    ensures Slot(table, p, bs) == table[Blk(p, bs)] * bs + Off(p, bs)
  {}

  // ---------------------------------------------------------------- exclusive blocks keep slots apart

  /** A block that receives a new token of `s` occurs nowhere else: not in another table, not twice in its own. */
  ghost predicate Exclusive(caches: seq<Kv>, cu: seq<nat>, bs: nat)
    requires bs > 0 && BatchOk(caches, cu, bs)
  {
    forall s, i, r, j {:trigger TokenSlot(caches, cu, bs, s, i), caches[r].table[j]} ::
      0 <= s < |caches| && 0 <= i < Length(cu, s) && 0 <= r < |caches| && 0 <= j < |caches[r].table|
        && BlockOf(caches, cu, bs, s, i) == caches[r].table[j] ==>
        (r == s && j == Blk(Position(caches, cu, s, i), bs))
  }

  /** The physical block token `i` of sequence `s` goes to. */
  function BlockOf(caches: seq<Kv>, cu: seq<nat>, bs: nat, s: nat, i: nat): nat
    requires bs > 0 && BatchOk(caches, cu, bs) && s < |caches| && i < Length(cu, s)
  {
    TokenSlotIs(caches, cu, bs, s, i);
    caches[s].table[Blk(Position(caches, cu, s, i), bs)]
  }

  /** A new token's slot is no other position's slot, in its own or any other sequence. */
  lemma NewSlotApart(caches: seq<Kv>, cu: seq<nat>, bs: nat, s: nat, i: nat, r: nat, p: nat)
    requires bs > 0 && BatchOk(caches, cu, bs) && Exclusive(caches, cu, bs) && s < |caches| && i < Length(cu, s)
    requires r < |caches| && Blk(p, bs) < |caches[r].table| && (r == s ==> p != Position(caches, cu, s, i))
    ensures TokenSlot(caches, cu, bs, s, i) != Slot(caches[r].table, p, bs)
  {
    hide Blk, Off, CeilDiv;
    TokenSlotIs(caches, cu, bs, s, i);
    var q := Position(caches, cu, s, i);
    var a, b := caches[s].table[Blk(q, bs)], caches[r].table[Blk(p, bs)];
    BlkOffOf(a, Off(q, bs), bs);
    BlkOffOf(b, Off(p, bs), bs);
    if TokenSlot(caches, cu, bs, s, i) == Slot(caches[r].table, p, bs) {
      assert BlockOf(caches, cu, bs, s, i) == caches[r].table[Blk(p, bs)];
      BlkOffDistinct(p, q, bs);
      assert false;
    }
  }

  /** The batch's slots are pairwise different. */
  lemma BatchDistinct(caches: seq<Kv>, cu: seq<nat>, bs: nat, slots: seq<nat>)
    requires bs > 0 && BatchOk(caches, cu, bs) && Exclusive(caches, cu, bs) && Mapped(caches, cu, bs, slots, |caches|)
    ensures NoDup(slots)
  {
    hide Blk, Off, CeilDiv, TokenSlot, Mapped, Exclusive;
    BatchSegments(caches, cu, bs);
    MappedSize(caches, cu, bs, slots);
    forall t, u | 0 <= t < u < |slots| ensures slots[t] != slots[u] {
      var s := SegmentOf(cu, |caches|, t);
      var r := SegmentOf(cu, |caches|, u);
      MappedAt(caches, cu, bs, slots, s, t - cu[s]);
      MappedAt(caches, cu, bs, slots, r, u - cu[r]);
      TokenSlotIs(caches, cu, bs, r, u - cu[r]);
      NewSlotApart(caches, cu, bs, s, t - cu[s], r, Position(caches, cu, r, u - cu[r]));
      SlotIs(caches[r].table, Position(caches, cu, r, u - cu[r]), bs);
    }
  }

  /** The batch's slots avoid every position written before. */
  lemma BatchApart(g: Geometry, caches: seq<Kv>, cu: seq<nat>, slots: seq<nat>, r: nat)
    requires g.bs > 0 && BatchOk(caches, cu, g.bs) && Exclusive(caches, cu, g.bs) && Mapped(caches, cu, g.bs, slots, |caches|)
    requires r < |caches| && TableFits(g, caches[r].table, caches[r].cursor - Length(cu, r)) && caches[r].cursor >= Length(cu, r)
    ensures Apart(g, slots, caches[r].table, caches[r].cursor - Length(cu, r))
  {
    hide Blk, Off, CeilDiv, TokenSlot, Mapped, Exclusive, Slot;
    BatchSegments(caches, cu, g.bs);
    MappedSize(caches, cu, g.bs, slots);
    var n := caches[r].cursor - Length(cu, r);
    forall t, p {:trigger slots[t], Blk(p, g.bs)} | 0 <= t < |slots| && 0 <= p < n && Blk(p, g.bs) < |caches[r].table|
      ensures slots[t] != Slot(caches[r].table, p, g.bs)
    {
      var s := SegmentOf(cu, |caches|, t);
      MappedAt(caches, cu, g.bs, slots, s, t - cu[s]);
      NewSlotApart(caches, cu, g.bs, s, t - cu[s], r, p);
    }
  }

  // ---------------------------------------------------------------- reading back

  /** The kernel's loads for one sequence and head: through row `s` of the padded table. */
  method ReadBack(g: Geometry, pool: array<int>, layer: nat, caches: seq<Kv>, table2d: seq<nat>, maxBlocks: nat, s: nat, kind: nat, head: nat)
    returns (out: seq<seq<int>>)
    requires PoolFits(g, pool[..]) && layer < g.layers && kind < 2 && head < g.nkv && s < |caches|
    requires (forall r :: 0 <= r < |caches| ==> |caches[r].table| <= maxBlocks) && Tabled(caches, table2d, maxBlocks, |caches|)
    requires TableFits(g, caches[s].table, caches[s].cursor)
    ensures |out| == caches[s].cursor
    ensures forall p :: 0 <= p < |out| ==> RowRead(g, pool[..], layer, caches[s].table, kind, head, p, out[p])
  {
    hide Mul, Address, Blk, Off, LayerElems, Tabled, RowRead;
    out := [];
    var p := 0;
    var table := caches[s].table;
    while p < caches[s].cursor
      invariant 0 <= p <= caches[s].cursor && |out| == p
      invariant forall q :: 0 <= q < p ==> RowRead(g, pool[..], layer, table, kind, head, q, out[q])
    {
      TableRow(caches, table2d, maxBlocks, s, Blk(p, g.bs));
      var block := table2d[Mul(s, maxBlocks) + Blk(p, g.bs)];
      var slot := Off(p, g.bs);
      var row: seq<int> := [];
      var c := 0;
      while c < g.hd
        invariant 0 <= c <= g.hd && |row| == c
        invariant forall d :: 0 <= d < c ==>
          Inside(g, Spot(layer, block, kind, head, slot, d)) && row[d] == At(g, pool[..], Spot(layer, block, kind, head, slot, d))
      {
        var x := Spot(layer, block, kind, head, slot, c);
        AddressInjective(g, x, x);
        row := row + [pool[Address(g, x)]];
        c := c + 1;
      }
      RowIsRead(g, pool[..], layer, table, kind, head, p, row);
      out := out + [row];
      p := p + 1;
    }
  }

  /** `row` is what the pool holds, through the block table, for position `p`. */
  ghost predicate RowRead(g: Geometry, pool: seq<int>, layer: nat, table: seq<nat>, kind: nat, head: nat, p: nat, row: seq<int>)
    requires PoolFits(g, pool)
  {
    && g.bs > 0 && Blk(p, g.bs) < |table| && |row| == g.hd
    && forall d :: 0 <= d < g.hd ==>
         Inside(g, SpotOf(layer, table, g.bs, p, kind, head, d)) && row[d] == At(g, pool, SpotOf(layer, table, g.bs, p, kind, head, d))
  }

  lemma RowIsRead(g: Geometry, pool: seq<int>, layer: nat, table: seq<nat>, kind: nat, head: nat, p: nat, row: seq<int>)
    requires PoolFits(g, pool) && g.bs > 0 && Blk(p, g.bs) < |table| && |row| == g.hd
    requires forall d :: 0 <= d < g.hd ==>
      Inside(g, Spot(layer, table[Blk(p, g.bs)], kind, head, Off(p, g.bs), d))
      && row[d] == At(g, pool, Spot(layer, table[Blk(p, g.bs)], kind, head, Off(p, g.bs), d))
    ensures RowRead(g, pool, layer, table, kind, head, p, row)
  {
    hide At, PoolFits, Blk, Off;
  }

  lemma TableRow(caches: seq<Kv>, table2d: seq<nat>, maxBlocks: nat, s: nat, b: nat)
    requires (forall r :: 0 <= r < |caches| ==> |caches[r].table| <= maxBlocks) && Tabled(caches, table2d, maxBlocks, |caches|)
    requires s < |caches| && b < |caches[s].table|
    ensures Mul(s, maxBlocks) + b < |table2d| && table2d[Mul(s, maxBlocks) + b] == caches[s].table[b]
  {
    hide Mul;
    assert Row(table2d, maxBlocks, s)[b] == Padded(caches[s].table, maxBlocks)[b];
  }
}
