/**
 One history behind both storages. Batch by batch, the tokens of all sequences go to the shared pool,
 and those of one sequence, by themselves, to a contiguous cache. Whichever sequence is followed, both
 storages then hold the same rows: what a kernel gathers through the block table is what the
 contiguous view returns, and attention over either gives the same result.
 */
module PagedTwin {
  import opened Basics
  import opened Tokens
  import opened CacheSpec
  import opened AttentionSpec
  import opened PagedStore
  import opened PagedBatch
  import opened KvCache
  import opened PagedAttend
  import K = AttentionKernels

  // ---------------------------------------------------------------- histories

  /**
   One forward pass: every sequence's cache after its metadata step, where its new tokens lie in the
   batch, and the keys and values of each layer. A sequence without new tokens sits the pass out.
   */
  datatype Batch = Batch(caches: seq<Kv>, cu: seq<nat>, rows: seq<Rows>)

  ghost predicate BatchFits(g: Geometry, b: Batch) {
    && g.bs > 0 && BatchOk(b.caches, b.cu, g.bs) && Exclusive(b.caches, b.cu, g.bs)
    && |b.rows| == g.layers
    && (forall l :: 0 <= l < |b.rows| ==> RowsFit(g, b.rows[l]) && b.rows[l].n == b.cu[|b.caches|])
    && (forall s, j {:trigger b.caches[s].table[j]} :: 0 <= s < |b.caches| && 0 <= j < |b.caches[s].table| ==>
          b.caches[s].table[j] < g.blocks)
  }

  /** Sequence `s`, so far with cache `kv`, takes part with a first prefill, with one more token, or not at all. */
  ghost predicate Follows(maxLen: nat, kv: Kv, b: Batch, s: nat) {
    && s < |b.caches| && s + 1 < |b.cu|
    && b.caches[s].cursor == kv.cursor + Length(b.cu, s) <= maxLen && Length(b.cu, s) >= 0
    && kv.table <= b.caches[s].table
    && (kv.cursor > 0 ==> Length(b.cu, s) <= 1)
    && (kv.cursor == 0 ==> Length(b.cu, s) < maxLen)
  }

  /** The cache of sequence `s` before pass `k`. */
  ghost function Before(steps: seq<Batch>, s: nat, k: nat): Kv
    requires k <= |steps| && forall i :: 0 <= i < k ==> s < |steps[i].caches|
  {
    if k == 0 then FRESH else steps[k - 1].caches[s]
  }

  ghost predicate Legal(g: Geometry, maxLen: nat, steps: seq<Batch>, s: nat) {
    && (forall i :: 0 <= i < |steps| ==> s < |steps[i].caches|)
    && (forall i :: 0 <= i < |steps| ==> BatchFits(g, steps[i]) && Follows(maxLen, Before(steps, s, i), steps[i], s))
  }

  lemma FitsPart(g: Geometry, b: Batch, s: nat, l: nat)
    requires BatchFits(g, b) && s < |b.caches| && l < g.layers
    ensures |b.rows| == g.layers && RowsFit(g, b.rows[l]) && s + 1 < |b.cu| && Length(b.cu, s) >= 0
    ensures b.cu[s] + Length(b.cu, s) <= b.rows[l].n
  {}

  /** The rows pass `b` adds to sequence `s` in layer `l`. */
  ghost function Added(g: Geometry, b: Batch, s: nat, l: nat): (r: seq<TokenRow>)
    requires BatchFits(g, b) && s < |b.caches| && l < g.layers
    ensures s + 1 < |b.cu| && |r| == Length(b.cu, s)
  {
    FitsPart(g, b, s, l);
    NewRows(g, b.rows[l], b.cu[s], Length(b.cu, s))
  }

  /** All rows of sequence `s` in layer `l` after `k` passes. */
  ghost function Past(g: Geometry, maxLen: nat, steps: seq<Batch>, s: nat, l: nat, k: nat): (r: seq<TokenRow>)
    requires Legal(g, maxLen, steps, s) && l < g.layers && k <= |steps|
    ensures |r| == Before(steps, s, k).cursor
  {
    if k == 0 then [] else
      assert Follows(maxLen, Before(steps, s, k - 1), steps[k - 1], s);
      Past(g, maxLen, steps, s, l, k - 1) + Added(g, steps[k - 1], s, l)
  }

  // ---------------------------------------------------------------- what both storages hold

  /** In layer `l` the pool, through `table`, and the two buffers hold the same rows. */
  ghost predicate Agree(g: Geometry, maxLen: nat, pool: seq<int>, kb: seq<seq<int>>, vb: seq<seq<int>>, table: seq<nat>, l: nat, rows: seq<TokenRow>) {
    && Holds(g, pool, l, table, rows) && l < |kb| == |vb|
    && BufferHolds(g.nkv, maxLen, g.hd, kb[l], KEY, rows) && BufferHolds(g.nkv, maxLen, g.hd, vb[l], VALUE, rows)
  }

  lemma AgreeNothing(g: Geometry, maxLen: nat, pool: seq<int>, kb: seq<seq<int>>, vb: seq<seq<int>>, l: nat)
    requires PoolFits(g, pool) && g.bs > 0 && l < g.layers && l < |kb| == |vb|
    requires |kb[l]| == TensorSize(g.nkv, maxLen, g.hd) == |vb[l]|
    ensures Agree(g, maxLen, pool, kb, vb, [], l, [])
  {
    hide Blk, Off, PoolFits, TensorSize, Place;
  }

  /** A longer table still reads the same rows. */
  lemma HoldsLonger(g: Geometry, pool: seq<int>, l: nat, table: seq<nat>, more: seq<nat>, rows: seq<TokenRow>)
    requires Holds(g, pool, l, table, rows) && table <= more
    ensures Holds(g, pool, l, more, rows)
  {
    hide Blk, Off, At, PoolFits;
    forall p {:trigger Blk(p, g.bs)} | 0 <= p < |rows| ensures Blk(p, g.bs) < |more| && more[Blk(p, g.bs)] == table[Blk(p, g.bs)] {}
    forall p, kind, h, d | 0 <= p < |rows| && 0 <= kind < 2 && 0 <= h < g.nkv && 0 <= d < g.hd
      ensures Blk(p, g.bs) < |more| && Inside(g, SpotOf(l, more, g.bs, p, kind, h, d))
      ensures At(g, pool, SpotOf(l, more, g.bs, p, kind, h, d)) == rows[p].at(kind, h, d)
    {
      assert SpotOf(l, more, g.bs, p, kind, h, d) == SpotOf(l, table, g.bs, p, kind, h, d);
    }
  }

  /** A scatter into one layer leaves the others alone. */
  lemma HoldsOther(g: Geometry, was: seq<int>, now: seq<int>, layer: nat, slots: seq<nat>, rows: Rows, l: nat, table: seq<nat>, old': seq<TokenRow>)
    requires SlotsFit(g, slots) && RowsFit(g, rows) && |slots| == rows.n && Scattered(g, was, now, layer, slots, rows, |slots|)
    requires l != layer && Holds(g, was, l, table, old')
    ensures Holds(g, now, l, table, old')
  {
    hide At, PoolFits, Blk, Off, SourceAt, SourceFits;
    forall p, kind, h, d | 0 <= p < |old'| && 0 <= kind < 2 && 0 <= h < g.nkv && 0 <= d < g.hd
      ensures Blk(p, g.bs) < |table| && Inside(g, SpotOf(l, table, g.bs, p, kind, h, d))
      ensures At(g, now, SpotOf(l, table, g.bs, p, kind, h, d)) == old'[p].at(kind, h, d)
    {
      var x := SpotOf(l, table, g.bs, p, kind, h, d);
      assert forall t :: 0 <= t < |slots| ==> !OfSlot(g, layer, slots[t], x);
    }
  }

  // ---------------------------------------------------------------- one sequence's part of a batch

  /** `part` is `len` tokens of the batch's tensor, from token `from` on. */
  ghost predicate Taken(g: Geometry, src: seq<int>, n: nat, from: nat, len: nat, part: seq<int>, heads: nat)
    requires from + len <= n && heads <= g.nkv
  {
    && SourceFits(g, src, n)
    && forall h, i, d :: 0 <= h < heads && 0 <= i < len && 0 <= d < g.hd ==>
         Place(len, g.hd, h, i, d) < |part| && part[Place(len, g.hd, h, i, d)] == SourceAt(g, src, n, h, from + i, d)
  }

  lemma TakeStep(g: Geometry, src: seq<int>, n: nat, from: nat, len: nat, mid: seq<int>, part: seq<int>, i: nat)
    requires from + len <= n && i < g.nkv && Taken(g, src, n, from, len, mid, i) && |mid| == i * Span(len, g.hd)
    requires i * Span(n, g.hd) + Span(from, g.hd) + Span(len, g.hd) <= |src|
    requires part == mid + src[i * Span(n, g.hd) + Span(from, g.hd)..i * Span(n, g.hd) + Span(from, g.hd) + Span(len, g.hd)]
    ensures Taken(g, src, n, from, len, part, i + 1)
  {
    hide Place, Span, SourceFits, SourceAt;
    forall h, t, d | 0 <= h < i + 1 && 0 <= t < len && 0 <= d < g.hd
      ensures Place(len, g.hd, h, t, d) < |part| && part[Place(len, g.hd, h, t, d)] == SourceAt(g, src, n, h, from + t, d)
    {
      if h == i {
        TakeNew(g, src, n, from, len, mid, part, i, t, d, i * Span(n, g.hd) + Span(from, g.hd), Span(len, g.hd));
      } else {
        assert Place(len, g.hd, h, t, d) < |mid| && mid[Place(len, g.hd, h, t, d)] == SourceAt(g, src, n, h, from + t, d);
      }
    }
  }

  /** Where column `d` of token `t` of head `i` is in the part, and where it comes from. */
  lemma TakeOffsets(hd: nat, n: nat, from: nat, len: nat, i: nat, t: nat, d: nat)
    requires from + len <= n && t < len && d < hd
    ensures Place(len, hd, i, t, d) == i * Span(len, hd) + (Span(t, hd) + d)
    ensures Place(n, hd, i, from + t, d) == i * Span(n, hd) + Span(from, hd) + (Span(t, hd) + d)
    ensures Span(t, hd) + d < Span(len, hd)
  {
    PlaceParts(len, hd, i, t, d);
    PlaceParts(n, hd, i, from + t, d);
    SpanAdd(hd, from, t, n);
    SpanOrder(hd, 0, len, t, d);
    SpanZero(hd);
  }

  lemma TakeNew(g: Geometry, src: seq<int>, n: nat, from: nat, len: nat, mid: seq<int>, part: seq<int>, i: nat, t: nat, d: nat, a: nat, w: nat)
    requires from + len <= n && i < g.nkv && SourceFits(g, src, n) && t < len && d < g.hd
    requires a == i * Span(n, g.hd) + Span(from, g.hd) && w == Span(len, g.hd) && |mid| == i * w
    requires a + w <= |src| && part == mid + src[a..a + w]
    ensures Place(len, g.hd, i, t, d) < |part| && part[Place(len, g.hd, i, t, d)] == SourceAt(g, src, n, i, from + t, d)
  {
    hide Span, SourceFits;
    TakeOffsets(g.hd, n, from, len, i, t, d);
    SourceBound(g, n, i, from + t, d);
    hide Place;
    TakenAt(mid, src, part, a, w, Span(t, g.hd) + d);
  }

  lemma TakenAt(mid: seq<int>, src: seq<int>, part: seq<int>, a: nat, w: nat, k: nat)
    requires a + w <= |src| && part == mid + src[a..a + w] && k < w
    ensures |mid| + k < |part| && part[|mid| + k] == src[a + k]
  {}

  lemma TakeFits(g: Geometry, n: nat, from: nat, len: nat, i: nat)
    requires from + len <= n && i < g.nkv
    ensures i * Span(n, g.hd) + Span(from, g.hd) + Span(len, g.hd) <= g.nkv * (n * g.hd)
    ensures (i + 1) * Span(len, g.hd) == i * Span(len, g.hd) + Span(len, g.hd)
  {
    CopyFits(g.nkv, n, g.hd, n, from, len, i);
  }

  /** Head by head, the tokens of one sequence. */
  method TakeTokens(g: Geometry, src: seq<int>, n: nat, from: nat, len: nat) returns (part: seq<int>)
    requires SourceFits(g, src, n) && from + len <= n
    ensures |part| == TensorSize(g.nkv, len, g.hd) && Taken(g, src, n, from, len, part, g.nkv)
  {
    hide Taken, Span;
    part := [];
    TakeNone(g, src, n, from, len);
    var i := 0;
    while i < g.nkv
      invariant 0 <= i <= g.nkv && |part| == i * Span(len, g.hd) && Taken(g, src, n, from, len, part, i)
    {
      TakeFits(g, n, from, len, i);
      ghost var mid := part;
      part := part + src[i * Span(n, g.hd) + Span(from, g.hd)..i * Span(n, g.hd) + Span(from, g.hd) + Span(len, g.hd)];
      TakeStep(g, src, n, from, len, mid, part, i);
      i := i + 1;
    }
    SpanIs(len, g.hd);
  }

  lemma TakeNone(g: Geometry, src: seq<int>, n: nat, from: nat, len: nat)
    requires SourceFits(g, src, n) && from + len <= n
    ensures Taken(g, src, n, from, len, [], 0)
  {}

  lemma SpanIs(n: nat, hd: nat)
    ensures Span(n, hd) == n * hd
  {}

  /** The part taken is the rows added. */
  lemma TakenRows(g: Geometry, rows: Rows, kind: nat, from: nat, len: nat, part: seq<int>)
    requires RowsFit(g, rows) && from + len <= rows.n && kind < 2
    requires Taken(g, if kind == KEY then rows.ks else rows.vs, rows.n, from, len, part, g.nkv)
    ensures forall h, i, d :: 0 <= h < g.nkv && 0 <= i < len && 0 <= d < g.hd ==>
      Place(len, g.hd, h, i, d) < |part| && part[Place(len, g.hd, h, i, d)] == NewRows(g, rows, from, len)[i].at(kind, h, d)
  {
    hide Place, SourceAt, SourceFits, NewRows;
    forall h, i, d | 0 <= h < g.nkv && 0 <= i < len && 0 <= d < g.hd
      ensures Place(len, g.hd, h, i, d) < |part| && part[Place(len, g.hd, h, i, d)] == NewRows(g, rows, from, len)[i].at(kind, h, d)
    {
      NewRowAt(g, rows, from, len, i, kind, h, d);
    }
  }

  // ---------------------------------------------------------------- one pass

  /** The table of a fitting batch keeps its positions in the pool. */
  lemma TableInside(g: Geometry, b: Batch, s: nat, n: nat)
    requires BatchFits(g, b) && s < |b.caches| && n <= b.caches[s].cursor
    ensures TableFits(g, b.caches[s].table, n)
  {
    hide Blk, CeilDiv;
    forall p {:trigger Blk(p, g.bs)} | 0 <= p < n ensures Blk(p, g.bs) < |b.caches[s].table| && b.caches[s].table[Blk(p, g.bs)] < g.blocks {
      InTable(p, b.caches[s].cursor, g.bs);
    }
  }

  lemma InTable(p: nat, n: nat, bs: nat)
    requires bs > 0 && p < n
    ensures Blk(p, bs) < CeilDiv(n, bs)
  {
    PosInTable(p, n, bs);
  }

  lemma BatchSlots(g: Geometry, b: Batch, slots: seq<nat>)
    requires BatchFits(g, b) && Mapped(b.caches, b.cu, g.bs, slots, |b.caches|)
    ensures SlotsFit(g, slots) && NoDup(slots) && |slots| == b.cu[|b.caches|]
  {
    hide Blk, Off, CeilDiv, TokenSlot, Mapped, Exclusive, RowsFit;
    BatchSegments(b.caches, b.cu, g.bs);
    MappedSize(b.caches, b.cu, g.bs, slots);
    BatchDistinct(b.caches, b.cu, g.bs, slots);
    forall t | 0 <= t < |slots| ensures Blk(slots[t], g.bs) < g.blocks {
      var s := SegmentOf(b.cu, |b.caches|, t);
      MappedAt(b.caches, b.cu, g.bs, slots, s, t - b.cu[s]);
      TokenSlotIs(b.caches, b.cu, g.bs, s, t - b.cu[s]);
      var p := Position(b.caches, b.cu, s, t - b.cu[s]);
      BlkOffOf(b.caches[s].table[Blk(p, g.bs)], Off(p, g.bs), g.bs);
    }
  }

  lemma PoolAppends(g: Geometry, was: seq<int>, now: seq<int>, b: Batch, slots: seq<nat>, s: nat, l: nat, old': seq<TokenRow>)
    requires BatchFits(g, b) && Mapped(b.caches, b.cu, g.bs, slots, |b.caches|) && s < |b.caches| && l < g.layers
    requires SlotsFit(g, slots) && RowsFit(g, b.rows[l]) && |slots| == b.rows[l].n && Scattered(g, was, now, l, slots, b.rows[l], |slots|)
    requires s + 1 < |b.cu| && |old'| + Length(b.cu, s) == b.caches[s].cursor
    requires Holds(g, was, l, b.caches[s].table, old')
    ensures Holds(g, now, l, b.caches[s].table, old' + Added(g, b, s, l))
  {
    hide Holds, Scattered, Mapped, Exclusive, BatchOk, RowsFit, SlotsFit, Blk;
    FitsPart(g, b, s, l);
    TableInside(g, b, s, b.caches[s].cursor);
    TableInside(g, b, s, |old'|);
    BatchApart(g, b.caches, b.cu, slots, s);
    BatchHolds(g, was, now, l, b.caches, b.cu, slots, b.rows[l], s, old');
  }

  /** What one pass leaves in layer `l`, and in the layers still to come. */
  ghost predicate Passed(g: Geometry, maxLen: nat, pool: seq<int>, kb: seq<seq<int>>, vb: seq<seq<int>>, b: Batch, s: nat, rows: seq<seq<TokenRow>>, l: nat)
    requires BatchFits(g, b) && s < |b.caches| && |rows| == g.layers
  {
    forall m {:trigger rows[m]} :: 0 <= m < g.layers ==>
      Agree(g, maxLen, pool, kb, vb, b.caches[s].table, m, if m < l then rows[m] + Added(g, b, s, m) else rows[m])
  }

  /** Layer `l` written in both storages. */
  lemma PassLayer(g: Geometry, maxLen: nat, was: seq<int>, now: seq<int>, kb: seq<seq<int>>, vb: seq<seq<int>>, kb': seq<seq<int>>, vb': seq<seq<int>>,
                  b: Batch, slots: seq<nat>, s: nat, rows: seq<seq<TokenRow>>, l: nat, kPart: seq<int>, vPart: seq<int>)
    requires BatchFits(g, b) && Mapped(b.caches, b.cu, g.bs, slots, |b.caches|) && s < |b.caches| && |rows| == g.layers && l < g.layers
    requires SlotsFit(g, slots) && RowsFit(g, b.rows[l]) && |slots| == b.rows[l].n && Scattered(g, was, now, l, slots, b.rows[l], |slots|)
    requires Passed(g, maxLen, was, kb, vb, b, s, rows, l)
    requires s + 1 < |b.cu| && |rows[l]| + Length(b.cu, s) == b.caches[s].cursor <= maxLen
    requires |kb| == |kb'| == |vb| == |vb'| == g.layers && forall m :: 0 <= m < g.layers && m != l ==> kb'[m] == kb[m] && vb'[m] == vb[m]
    requires var len := Length(b.cu, s);
      if len == 0 then kb' == kb && vb' == vb
      else
        && len > 0
        && b.cu[s] + len <= b.rows[l].n
        && Taken(g, b.rows[l].ks, b.rows[l].n, b.cu[s], len, kPart, g.nkv) && Taken(g, b.rows[l].vs, b.rows[l].n, b.cu[s], len, vPart, g.nkv)
        && Replaced(g.nkv, maxLen, g.hd, kb[l], kb'[l], kPart, len, |rows[l]|, len, g.nkv)
        && Replaced(g.nkv, maxLen, g.hd, vb[l], vb'[l], vPart, len, |rows[l]|, len, g.nkv)
    ensures Passed(g, maxLen, now, kb', vb', b, s, rows, l + 1)
  {
    hide Holds, Scattered, Mapped, BatchFits, RowsFit, SlotsFit, BufferHolds, Replaced, Taken, NewRows;
    var table := b.caches[s].table;
    FitsPart(g, b, s, l);
    forall m {:trigger rows[m]} | 0 <= m < g.layers
      ensures Agree(g, maxLen, now, kb', vb', table, m, if m < l + 1 then rows[m] + Added(g, b, s, m) else rows[m])
    {
      var before := if m < l then rows[m] + Added(g, b, s, m) else rows[m];
      assert Agree(g, maxLen, was, kb, vb, table, m, before);
      if m != l {
        HoldsOther(g, was, now, l, slots, b.rows[l], m, table, before);
      } else {
        PoolAppends(g, was, now, b, slots, s, l, rows[l]);
        if Length(b.cu, s) == 0 {
          assert rows[l] + Added(g, b, s, l) == rows[l];
        } else {
          TakenRows(g, b.rows[l], KEY, b.cu[s], Length(b.cu, s), kPart);
          TakenRows(g, b.rows[l], VALUE, b.cu[s], Length(b.cu, s), vPart);
          BufferAppends(g, maxLen, kb[l], kb'[l], KEY, kPart, Length(b.cu, s), rows[l], Added(g, b, s, l));
          BufferAppends(g, maxLen, vb[l], vb'[l], VALUE, vPart, Length(b.cu, s), rows[l], Added(g, b, s, l));
        }
      }
    }
  }

  /** The contiguous cache has the pool's shape. */
  ghost predicate SameShape(g: Geometry, c: KVCache)
    reads c
  {
    g.layers > 0 && c.numLayers == g.layers && c.numKvHeads == g.nkv && c.headDim == g.hd
  }

  /** Both storages hold `rows[l]` in every layer `l`. */
  ghost predicate Twins(g: Geometry, maxLen: nat, pool: seq<int>, kb: seq<seq<int>>, vb: seq<seq<int>>, table: seq<nat>, rows: seq<seq<TokenRow>>) {
    |rows| == g.layers && forall m {:trigger rows[m]} :: 0 <= m < g.layers ==> Agree(g, maxLen, pool, kb, vb, table, m, rows[m])
  }

  lemma PassStart(g: Geometry, maxLen: nat, pool: seq<int>, kb: seq<seq<int>>, vb: seq<seq<int>>, kv: Kv, b: Batch, s: nat, rows: seq<seq<TokenRow>>)
    requires BatchFits(g, b) && Follows(maxLen, kv, b, s) && Twins(g, maxLen, pool, kb, vb, kv.table, rows)
    ensures Passed(g, maxLen, pool, kb, vb, b, s, rows, 0)
  {
    hide Holds, BufferHolds, BatchFits;
    forall m {:trigger rows[m]} | 0 <= m < g.layers ensures Agree(g, maxLen, pool, kb, vb, b.caches[s].table, m, rows[m]) {
      assert Agree(g, maxLen, pool, kb, vb, kv.table, m, rows[m]);
      HoldsLonger(g, pool, m, kv.table, b.caches[s].table, rows[m]);
    }
  }

  /** The rows of all layers after pass `b`. */
  ghost function AllAdded(g: Geometry, b: Batch, s: nat, rows: seq<seq<TokenRow>>): (r: seq<seq<TokenRow>>)
    requires BatchFits(g, b) && s < |b.caches| && |rows| == g.layers
    ensures |r| == g.layers && forall m :: 0 <= m < g.layers ==> r[m] == rows[m] + Added(g, b, s, m)
  {
    seq(g.layers, m requires 0 <= m < g.layers => rows[m] + Added(g, b, s, m))
  }

  lemma PassEnd(g: Geometry, maxLen: nat, pool: seq<int>, kb: seq<seq<int>>, vb: seq<seq<int>>, b: Batch, s: nat, rows: seq<seq<TokenRow>>)
    requires BatchFits(g, b) && s < |b.caches| && |rows| == g.layers && Passed(g, maxLen, pool, kb, vb, b, s, rows, g.layers)
    ensures Twins(g, maxLen, pool, kb, vb, b.caches[s].table, AllAdded(g, b, s, rows))
  {
    hide Agree, BatchFits, Added;
    var all := AllAdded(g, b, s, rows);
    forall m {:trigger all[m]} | 0 <= m < g.layers ensures Agree(g, maxLen, pool, kb, vb, b.caches[s].table, m, all[m]) {
      assert all[m] == rows[m] + Added(g, b, s, m);
    }
  }

  /** One pass: the whole batch into the pool, and the followed sequence's tokens into its own cache, layer by layer. */
  method Pass(g: Geometry, pool: array<int>, c: KVCache, b: Batch, s: nat, ghost kv: Kv, ghost rows: seq<seq<TokenRow>>)
    requires HeadsFit(g.nkv) && g.hd == HeadDim && PoolFits(g, pool[..]) && SameShape(g, c) && c.Valid() && c.cursor == kv.cursor
    requires BatchFits(g, b) && Follows(c.maxSeqLen, kv, b, s)
    requires Twins(g, c.maxSeqLen, pool[..], c.kCache[..], c.vCache[..], kv.table, rows)
    requires forall m {:trigger rows[m]} :: 0 <= m < |rows| ==> |rows[m]| == kv.cursor
    modifies pool, c, c.kCache, c.vCache
    ensures PoolFits(g, pool[..]) && c.Valid() && c.cursor == b.caches[s].cursor
    ensures |rows| == g.layers && Twins(g, c.maxSeqLen, pool[..], c.kCache[..], c.vCache[..], b.caches[s].table, AllAdded(g, b, s, rows))
  {
    hide Twins, Passed, Mapped, BatchFits, Scattered, SlotsFit, RowsFit, PoolFits, Replaced, Taken, TensorSize, AllAdded, Landed, NoDup, HeadsFit;
    TwinsSize(g, c.maxSeqLen, pool[..], c.kCache[..], c.vCache[..], kv.table, rows);
    FitsBatch(g, b, s);
    var slots := SlotMapping(b.caches, b.cu, g.bs, false);
    BatchSlots(g, b, slots);
    PassStart(g, c.maxSeqLen, pool[..], c.kCache[..], c.vCache[..], kv, b, s, rows);
    var from, len := b.cu[s], b.cu[s + 1] - b.cu[s];
    var decode := c.cursor > 0;
    var l := 0;
    while l < g.layers
      invariant 0 <= l <= g.layers && c.Valid() && PoolFits(g, pool[..])
      invariant c.cursor == if l == 0 then kv.cursor else b.caches[s].cursor
      invariant Passed(g, c.maxSeqLen, pool[..], c.kCache[..], c.vCache[..], b, s, rows, l)
    {
      ghost var was, kb, vb := pool[..], c.kCache[..], c.vCache[..];
      FitsPart(g, b, s, l);
      FitsLayer(g, b, l, slots);
      PagedWrite(g, pool, l, b.rows[l], slots);
      ScatteredFits(g, was, pool[..], l, slots, b.rows[l]);
      var kPart, vPart := [], [];
      if len > 0 {
        FitsSources(g, b.rows[l]);
        kPart := TakeTokens(g, b.rows[l].ks, b.rows[l].n, from, len);
        vPart := TakeTokens(g, b.rows[l].vs, b.rows[l].n, from, len);
        var w := c.Write(l, kPart, vPart, len, decode);
      }
      assert |rows[l]| == kv.cursor;
      PassLayer(g, c.maxSeqLen, was, pool[..], kb, vb, c.kCache[..], c.vCache[..], b, slots, s, rows, l, kPart, vPart);
      l := l + 1;
    }
    PassEnd(g, c.maxSeqLen, pool[..], c.kCache[..], c.vCache[..], b, s, rows);
  }

  lemma TwinsSize(g: Geometry, maxLen: nat, pool: seq<int>, kb: seq<seq<int>>, vb: seq<seq<int>>, table: seq<nat>, rows: seq<seq<TokenRow>>)
    requires Twins(g, maxLen, pool, kb, vb, table, rows)
    ensures |rows| == g.layers
  {}

  lemma FitsBatch(g: Geometry, b: Batch, s: nat)
    requires BatchFits(g, b) && s < |b.caches|
    ensures g.bs > 0 && BatchOk(b.caches, b.cu, g.bs) && s + 1 < |b.cu| && |b.rows| == g.layers
  {}

  lemma FitsLayer(g: Geometry, b: Batch, l: nat, slots: seq<nat>)
    requires BatchFits(g, b) && l < g.layers && |slots| == b.cu[|b.caches|]
    ensures |b.rows| == g.layers && RowsFit(g, b.rows[l]) && |slots| == b.rows[l].n
  {}

  lemma FitsSources(g: Geometry, rows: Rows)
    requires RowsFit(g, rows)
    ensures SourceFits(g, rows.ks, rows.n) && SourceFits(g, rows.vs, rows.n)
  {}

  lemma ScatteredFits(g: Geometry, was: seq<int>, now: seq<int>, layer: nat, slots: seq<nat>, rows: Rows)
    requires SlotsFit(g, slots) && RowsFit(g, rows) && |slots| == rows.n && Scattered(g, was, now, layer, slots, rows, |slots|)
    ensures PoolFits(g, now)
  {}

  // ---------------------------------------------------------------- whole histories

  /** All rows of sequence `s` after `k` passes, layer by layer. */
  ghost function Pasts(g: Geometry, maxLen: nat, steps: seq<Batch>, s: nat, k: nat): (r: seq<seq<TokenRow>>)
    requires Legal(g, maxLen, steps, s) && k <= |steps|
    ensures |r| == g.layers && forall l :: 0 <= l < g.layers ==> r[l] == Past(g, maxLen, steps, s, l, k)
  {
    seq(g.layers, l requires 0 <= l < g.layers => Past(g, maxLen, steps, s, l, k))
  }

  lemma PastsNext(g: Geometry, maxLen: nat, steps: seq<Batch>, s: nat, k: nat)
    requires Legal(g, maxLen, steps, s) && k < |steps|
    ensures BatchFits(g, steps[k]) && Follows(maxLen, Before(steps, s, k), steps[k], s)
    ensures Pasts(g, maxLen, steps, s, k + 1) == AllAdded(g, steps[k], s, Pasts(g, maxLen, steps, s, k))
    ensures Before(steps, s, k + 1) == steps[k].caches[s]
  {
    hide BatchFits, Follows, Added;
    var next, all := Pasts(g, maxLen, steps, s, k + 1), AllAdded(g, steps[k], s, Pasts(g, maxLen, steps, s, k));
    forall l | 0 <= l < g.layers ensures next[l] == all[l] {
      assert Past(g, maxLen, steps, s, l, k + 1) == Past(g, maxLen, steps, s, l, k) + Added(g, steps[k], s, l);
    }
  }

  lemma FreshTwins(g: Geometry, maxLen: nat, pool: seq<int>, kb: seq<seq<int>>, vb: seq<seq<int>>, steps: seq<Batch>, s: nat)
    requires Legal(g, maxLen, steps, s) && PoolFits(g, pool) && g.bs > 0 && |kb| == |vb| == g.layers
    requires forall l :: 0 <= l < g.layers ==> |kb[l]| == TensorSize(g.nkv, maxLen, g.hd) == |vb[l]|
    ensures Twins(g, maxLen, pool, kb, vb, Before(steps, s, 0).table, Pasts(g, maxLen, steps, s, 0))
  {
    hide Agree, Legal, PoolFits, TensorSize;
    var rows := Pasts(g, maxLen, steps, s, 0);
    forall m {:trigger rows[m]} | 0 <= m < g.layers ensures Agree(g, maxLen, pool, kb, vb, [], m, rows[m]) {
      assert Past(g, maxLen, steps, s, m, 0) == [];
      AgreeNothing(g, maxLen, pool, kb, vb, m);
    }
  }

  lemma PastSizes(g: Geometry, maxLen: nat, steps: seq<Batch>, s: nat, k: nat)
    requires Legal(g, maxLen, steps, s) && k <= |steps|
    ensures forall m {:trigger Pasts(g, maxLen, steps, s, k)[m]} :: 0 <= m < g.layers ==> |Pasts(g, maxLen, steps, s, k)[m]| == Before(steps, s, k).cursor
  {
    hide Legal;
    LegalBounds(g, maxLen, steps, s);
    var rows := Pasts(g, maxLen, steps, s, k);
    forall m | 0 <= m < g.layers ensures |rows[m]| == Before(steps, s, k).cursor {
      assert rows[m] == Past(g, maxLen, steps, s, m, k);
    }
  }

  /**
   Any history: a first prefill, then decodes, in batches with any other sequences. Afterwards, in
   every layer, the pool through the sequence's block table and the contiguous buffers hold exactly
   the rows the passes brought, in order.
   */
  method Play(g: Geometry, pool: array<int>, c: KVCache, steps: seq<Batch>, s: nat)
    requires HeadsFit(g.nkv) && g.hd == HeadDim && g.bs > 0 && PoolFits(g, pool[..]) && SameShape(g, c) && c.Valid() && c.cursor == 0
    requires Legal(g, c.maxSeqLen, steps, s)
    modifies pool, c, c.kCache, c.vCache
    ensures PoolFits(g, pool[..]) && c.Valid() && c.cursor == Before(steps, s, |steps|).cursor
    ensures Twins(g, c.maxSeqLen, pool[..], c.kCache[..], c.vCache[..], Before(steps, s, |steps|).table, Pasts(g, c.maxSeqLen, steps, s, |steps|))
  {
    hide Twins, Pasts, AllAdded, Legal, BatchFits, Follows, PoolFits, TensorSize, HeadsFit;
    LegalBounds(g, c.maxSeqLen, steps, s);
    FreshTwins(g, c.maxSeqLen, pool[..], c.kCache[..], c.vCache[..], steps, s);
    var k := 0;
    while k < |steps|
      invariant 0 <= k <= |steps| && PoolFits(g, pool[..]) && c.Valid() && c.cursor == Before(steps, s, k).cursor
      invariant Twins(g, c.maxSeqLen, pool[..], c.kCache[..], c.vCache[..], Before(steps, s, k).table, Pasts(g, c.maxSeqLen, steps, s, k))
    {
      PastsNext(g, c.maxSeqLen, steps, s, k);
      PastSizes(g, c.maxSeqLen, steps, s, k);
      Pass(g, pool, c, steps[k], s, Before(steps, s, k), Pasts(g, c.maxSeqLen, steps, s, k));
      k := k + 1;
    }
  }

  lemma LegalBounds(g: Geometry, maxLen: nat, steps: seq<Batch>, s: nat)
    requires Legal(g, maxLen, steps, s)
    ensures forall i :: 0 <= i < |steps| ==> s < |steps[i].caches|
  {}

  // ---------------------------------------------------------------- reading either storage back

  lemma TwinAt(g: Geometry, maxLen: nat, pool: seq<int>, kb: seq<seq<int>>, vb: seq<seq<int>>, table: seq<nat>, rows: seq<seq<TokenRow>>, l: nat)
    requires Twins(g, maxLen, pool, kb, vb, table, rows) && l < g.layers
    ensures l < |kb| == |vb| && |rows| == g.layers && Holds(g, pool, l, table, rows[l])
    ensures BufferHolds(g.nkv, maxLen, g.hd, kb[l], KEY, rows[l]) && BufferHolds(g.nkv, maxLen, g.hd, vb[l], VALUE, rows[l])
  {
    assert Agree(g, maxLen, pool, kb, vb, table, l, rows[l]);
  }

  /**
   After any history, `k_view` and `v_view` return, element by element, what the block table reads from
   the pool.
   */
  method ViewsAfter(g: Geometry, pool: array<int>, c: KVCache, steps: seq<Batch>, s: nat, l: nat) returns (kView: seq<int>, vView: seq<int>)
    requires HeadsFit(g.nkv) && g.hd == HeadDim && g.bs > 0 && PoolFits(g, pool[..]) && SameShape(g, c) && c.Valid() && c.cursor == 0
    requires Legal(g, c.maxSeqLen, steps, s) && l < g.layers
    modifies pool, c, c.kCache, c.vCache
    ensures PoolFits(g, pool[..]) && c.Valid() && c.cursor == Before(steps, s, |steps|).cursor
    ensures Holds(g, pool[..], l, Before(steps, s, |steps|).table, Past(g, c.maxSeqLen, steps, s, l, |steps|))
    ensures Packs(g, kView, KEY, Past(g, c.maxSeqLen, steps, s, l, |steps|))
    ensures Packs(g, vView, VALUE, Past(g, c.maxSeqLen, steps, s, l, |steps|))
    ensures forall h, p, d :: 0 <= h < g.nkv && 0 <= p < c.cursor && 0 <= d < g.hd ==>
      && Reads(g, pool[..], l, Before(steps, s, |steps|).table, KEY, h, p, d, kView, c.cursor)
      && Reads(g, pool[..], l, Before(steps, s, |steps|).table, VALUE, h, p, d, vView, c.cursor)
  {
    hide Twins, Pasts, Past, Legal, PoolFits, TensorSize, Place, Holds, BufferHolds, Packs, HeadsFit, Reads;
    LegalBounds(g, c.maxSeqLen, steps, s);
    Play(g, pool, c, steps, s);
    ghost var table, rows := Before(steps, s, |steps|).table, Past(g, c.maxSeqLen, steps, s, l, |steps|);
    TwinAt(g, c.maxSeqLen, pool[..], c.kCache[..], c.vCache[..], table, Pasts(g, c.maxSeqLen, steps, s, |steps|), l);
    PastIs(g, c.maxSeqLen, steps, s, l, |steps|);
    kView := c.View(c.kCache[l]);
    vView := c.View(c.vCache[l]);
    ViewPacks(g, c.maxSeqLen, c.kCache[l], kView, KEY, rows);
    ViewPacks(g, c.maxSeqLen, c.vCache[l], vView, VALUE, rows);
    forall h, p, d | 0 <= h < g.nkv && 0 <= p < c.cursor && 0 <= d < g.hd
      ensures Reads(g, pool[..], l, table, KEY, h, p, d, kView, c.cursor) && Reads(g, pool[..], l, table, VALUE, h, p, d, vView, c.cursor)
    {
      ReadsAt(g, pool[..], l, table, rows, kView, KEY, h, p, d);
      ReadsAt(g, pool[..], l, table, rows, vView, VALUE, h, p, d);
    }
  }

  lemma PastIs(g: Geometry, maxLen: nat, steps: seq<Batch>, s: nat, l: nat, k: nat)
    requires Legal(g, maxLen, steps, s) && k <= |steps| && l < g.layers
    ensures Pasts(g, maxLen, steps, s, k)[l] == Past(g, maxLen, steps, s, l, k)
    ensures |Past(g, maxLen, steps, s, l, k)| == Before(steps, s, k).cursor
  {
    hide Legal;
  }

  /** The pool, through the block table, and the packed view have the same element. */
  ghost predicate Reads(g: Geometry, pool: seq<int>, l: nat, table: seq<nat>, kind: nat, h: nat, p: nat, d: nat, view: seq<int>, n: nat)
    requires PoolFits(g, pool)
  {
    && g.bs > 0 && Blk(p, g.bs) < |table| && Inside(g, SpotOf(l, table, g.bs, p, kind, h, d)) && Place(n, g.hd, h, p, d) < |view|
    && At(g, pool, SpotOf(l, table, g.bs, p, kind, h, d)) == view[Place(n, g.hd, h, p, d)]
  }

  lemma ReadsAt(g: Geometry, pool: seq<int>, l: nat, table: seq<nat>, rows: seq<TokenRow>, view: seq<int>, kind: nat, h: nat, p: nat, d: nat)
    requires Holds(g, pool, l, table, rows) && Packs(g, view, kind, rows) && kind < 2 && h < g.nkv && p < |rows| && d < g.hd
    ensures PoolFits(g, pool) && Reads(g, pool, l, table, kind, h, p, d, view, |rows|)
  {
    hide PoolFits, Place, At, Blk, Off;
  }

  // ---------------------------------------------------------------- attention over either storage

  /** The last pass as the kernels see it. */
  method Kernels(g: Geometry, pool: array<int>, b: Batch, s: nat, l: nat, ghost rows: seq<TokenRow>) returns (v: View)
    requires g.hd == HeadDim && l < g.layers && s < |b.caches| && b.caches[s].cursor == |rows| && Holds(g, pool[..], l, b.caches[s].table, rows)
    ensures ViewOk(g, pool[..], v, rows) && v.caches == b.caches && v.s == s
  {
    hide Holds, Tabled;
    var maxBlocks, table2d := Table2D(b.caches);
    v := View(l, b.caches, table2d, maxBlocks, s);
  }

  /** After any history, whatever head: the keys and values the paged kernels gather are those of the contiguous views. */
  method GatherBoth(g: Geometry, pool: array<int>, c: KVCache, steps: seq<Batch>, s: nat, l: nat, head: nat, val: int -> real)
    returns (paged: (seq<seq<real>>, seq<seq<real>>), contiguous: (seq<seq<real>>, seq<seq<real>>))
    requires HeadsFit(g.nkv) && g.hd == HeadDim && g.bs > 0 && PoolFits(g, pool[..]) && SameShape(g, c) && c.Valid() && c.cursor == 0
    requires Legal(g, c.maxSeqLen, steps, s) && steps != [] && l < g.layers && head < g.nkv
    modifies pool, c, c.kCache, c.vCache
    ensures paged == contiguous && |paged.0| == |paged.1| == c.cursor == Before(steps, s, |steps|).cursor
  {
    hide Legal, PoolFits, Holds, Packs, ViewOk, HeadsFit, Past, Reads;
    var kView, vView := ViewsAfter(g, pool, c, steps, s, l);
    ghost var rows := Past(g, c.maxSeqLen, steps, s, l, |steps|);
    PastIs(g, c.maxSeqLen, steps, s, l, |steps|);
    LegalBounds(g, c.maxSeqLen, steps, s);
    var v := Kernels(g, pool, steps[|steps| - 1], s, l, rows);
    var ks := Gather(g, pool, v, KEY, head, val, rows);
    var vs := Gather(g, pool, v, VALUE, head, val, rows);
    var ks' := ReadView(g, kView, c.cursor, KEY, head, val, rows);
    var vs' := ReadView(g, vView, c.cursor, VALUE, head, val, rows);
    paged, contiguous := (ks, vs), (ks', vs');
  }

  /** A first prefill from empty storages, in a batch with any others: the paged and the contiguous kernel return the same row. */
  method PrefillTwins(e: real -> real, g: Geometry, pool: array<int>, c: KVCache, b: Batch, s: nat, l: nat, head: nat, val: int -> real,
                      q: seq<real>, scalar: real, qb: nat, row: nat) returns (paged: seq<real>, contiguous: seq<real>)
    requires HeadsFit(g.nkv) && g.hd == HeadDim && g.bs > 0 && PoolFits(g, pool[..]) && SameShape(g, c) && c.Valid() && c.cursor == 0
    requires Legal(g, c.maxSeqLen, [b], s) && l < g.layers && head < g.nkv && s < |b.caches| && 0 < b.caches[s].cursor
    requires IsExp(e) && |q| == K.HeadDim && row < K.Br
    modifies pool, c, c.kCache, c.vCache
    ensures paged == contiguous
  {
    hide Legal, PoolFits, Holds, Packs, ViewOk, HeadsFit, Past, Reads, IsExp;
    var kView, vView := ViewsAfter(g, pool, c, [b], s, l);
    ghost var rows := Past(g, c.maxSeqLen, [b], s, l, 1);
    PastIs(g, c.maxSeqLen, [b], s, l, 1);
    LegalBounds(g, c.maxSeqLen, [b], s);
    assert Before([b], s, 1) == b.caches[s];
    var v := Kernels(g, pool, b, s, l, rows);
    paged, contiguous := PrefillBoth(e, g, pool, v, kView, vView, head, val, q, scalar, qb, row, rows);
  }
}
