/**
 One request's paged cache, updated in place: cursor, host block table and its device copy, a
 buffer of fixed capacity. Metadata is proved against the value-level cache; the device copy is
 proved to be the host table at every step, and exactly when it would be written past its end.
 */
module PagedCache {
  import opened Tokens
  import opened PoolSpec
  import opened CacheSpec
  import B = BlockPool

  /** `Overrun`: the device copy would be written past its capacity. */
  datatype Outcome = Done | Rejected | Overrun

  class PagedKVCache {
    const maxSeqLen: nat
    const blockSize: nat
    var cursor: nat
    var blockTable: seq<nat>
    var dBlockTable: array?<nat>
    var dBlockTableCap: nat
    var blockSizeChecked: bool
    var adopted: bool

    ghost function State(): Kv
      reads this
    {
      Kv(cursor, blockTable, dBlockTable != null, adopted)
    }

    /** The device copy starts with the host table; without one the table is empty. */
    ghost predicate Valid()
      reads this, dBlockTable
    {
      && blockSize > 0
      && (dBlockTable == null ==> blockTable == [] && cursor == 0)
      && (dBlockTable != null ==>
            && dBlockTableCap == dBlockTable.Length == CeilDiv(maxSeqLen, blockSize)
            && |blockTable| <= dBlockTable.Length && dBlockTable[..|blockTable|] == blockTable)
    }

    constructor (maxSeqLen: nat, blockSize: nat)
      requires blockSize > 0
      ensures Valid() && State() == FRESH && this.maxSeqLen == maxSeqLen && this.blockSize == blockSize
    {
      this.maxSeqLen := maxSeqLen;
      this.blockSize := blockSize;
      cursor := 0;
      blockTable := [];
      dBlockTable := null;
      dBlockTableCap := 0;
      blockSizeChecked := false;
      adopted := false;
    }

    /** Append `blocks` to the host table and, from the same offset, to the device copy. */
    method Append(blocks: seq<nat>) returns (ok: bool)
      requires Valid() && dBlockTable != null
      modifies this`blockTable, dBlockTable
      ensures blockTable == old(blockTable) + blocks
      ensures ok == (|blockTable| <= CeilDiv(maxSeqLen, blockSize))
      ensures ok ==> Valid()
      ensures !ok ==> dBlockTable[..] == old(dBlockTable[..])
    {
      var at := |blockTable|;
      blockTable := blockTable + blocks;
      if at + |blocks| > dBlockTable.Length {
        return false;
      }
      forall i | 0 <= i < |blocks| {
        dBlockTable[at + i] := blocks[i];
      }
      assert dBlockTable[..|blockTable|] == dBlockTable[..at] + blocks;
      ok := true;
    }

    /** Allocate the device copy and fill it with the host table. */
    method Mirror(blocks: seq<nat>) returns (ok: bool)
      requires blockSize > 0
      modifies this`blockTable, this`dBlockTable, this`dBlockTableCap
      ensures blockTable == blocks && ok == (|blocks| <= CeilDiv(maxSeqLen, blockSize))
      ensures dBlockTable != null && fresh(dBlockTable)
      ensures ok ==> Valid()
    {
      blockTable := blocks;
      dBlockTableCap := CeilDiv(maxSeqLen, blockSize);
      dBlockTable := new nat[dBlockTableCap];
      if |blocks| > dBlockTable.Length {
        return false;
      }
      forall i | 0 <= i < |blocks| {
        dBlockTable[i] := blocks[i];
      }
      assert dBlockTable[..|blockTable|] == blocks;
      ok := true;
    }

    /** `prepare_meta`. Only layer 0 does anything. */
    method PrepareMeta(layer: int, bm: B.BlockManager, len: int, isDecode: bool) returns (outcome: Outcome)
      requires Valid() && bm.Valid()
      requires bm.refCnt != dBlockTable
      modifies this, dBlockTable, bm, bm.refCnt, bm.prevFree, bm.nextFree
      ensures bm.Valid()
      ensures bm.blockSize == blockSize && layer == 0 ==>
        var r := CacheSpec.PrepareMeta(old(State()), old(bm.State()), len, isDecode, blockSize, maxSeqLen);
        && State() == r.kv && bm.State() == r.pool
        && (outcome == Rejected <==> !r.ok)
        && (outcome == Overrun <==> r.ok && |r.kv.table| > CeilDiv(maxSeqLen, blockSize))
      ensures layer != 0 || (bm.blockSize != blockSize && !old(blockSizeChecked)) ==>
        State() == old(State()) && bm.State() == old(bm.State()) && outcome != Overrun
      ensures outcome != Overrun ==> Valid()
      ensures dBlockTable == old(dBlockTable) || fresh(dBlockTable)
    {
      hide PoolOk, B.Linked, B.Chain, CeilDiv, Alloc;
      if !blockSizeChecked {
        if bm.blockSize != blockSize {
          return Rejected;
        }
        blockSizeChecked := true;
      }
      if layer < 0 || layer >= bm.numLayers {
        return Rejected;
      }
      if layer != 0 {
        return Done;
      }
      if len >= maxSeqLen || len < 0 {
        return Rejected;
      }
      if isDecode {
        outcome := Decode(bm, len);
      } else {
        outcome := Prefill(bm, len);
      }
    }

    method Decode(bm: B.BlockManager, len: nat) returns (outcome: Outcome)
      requires Valid() && bm.Valid() && len < maxSeqLen
      requires bm.refCnt != dBlockTable
      modifies this, dBlockTable, bm, bm.refCnt, bm.prevFree, bm.nextFree
      ensures bm.Valid() && (outcome != Overrun ==> Valid()) && dBlockTable == old(dBlockTable)
      ensures var r := CacheSpec.PrepareMeta(old(State()), old(bm.State()), len, true, blockSize, maxSeqLen);
        && State() == r.kv && bm.State() == r.pool
        && (outcome == Rejected <==> !r.ok)
        && (outcome == Overrun <==> r.ok && |r.kv.table| > CeilDiv(maxSeqLen, blockSize))
    {
      hide PoolOk, B.Linked, B.Chain, CeilDiv, Alloc;
      if dBlockTable == null || len != 1 || cursor >= maxSeqLen {
        return Rejected;
      }
      cursor := cursor + 1;
      if cursor % blockSize == 1 {
        var got, blocks := bm.AllocBlocks(1);
        if !got {
          return Rejected;
        }
        var fits := Append(blocks);
        if !fits {
          return Overrun;
        }
      }
      outcome := Done;
    }

    method Prefill(bm: B.BlockManager, len: nat) returns (outcome: Outcome)
      requires Valid() && bm.Valid() && len < maxSeqLen
      requires bm.refCnt != dBlockTable
      modifies this, dBlockTable, bm, bm.refCnt, bm.prevFree, bm.nextFree
      ensures bm.Valid() && (outcome != Overrun ==> Valid()) && (dBlockTable == old(dBlockTable) || fresh(dBlockTable))
      ensures var r := CacheSpec.PrepareMeta(old(State()), old(bm.State()), len, false, blockSize, maxSeqLen);
        && State() == r.kv && bm.State() == r.pool
        && (outcome == Rejected <==> !r.ok)
        && (outcome == Overrun <==> r.ok && |r.kv.table| > CeilDiv(maxSeqLen, blockSize))
    {
      hide PoolOk, B.Linked, B.Chain, CeilDiv, Alloc;
      if cursor > 0 && !adopted {
        return Rejected;
      }
      var got, blocks := bm.AllocBlocks(CeilDiv(len, blockSize));
      if !got {
        return Rejected;
      }
      var fits;
      if cursor > 0 {
        cursor := cursor + len;
        fits := Append(blocks);
      } else {
        cursor := len;
        fits := Mirror(blocks);
      }
      outcome := if fits then Done else Overrun;
    }

    /** `reset`: back to a fresh cache; the blocks were already given back. */
    method Reset()
      requires Valid()
      modifies this
      ensures Valid() && State() == FRESH
    {
      adopted := false;
      cursor := 0;
      blockTable := [];
      dBlockTable := null;
      dBlockTableCap := 0;
    }

    /** `adopt_prefix`. */
    method AdoptPrefix(prefixBlocks: seq<nat>) returns (ok: bool)
      requires Valid()
      modifies this
      ensures Valid() && (ok, State()) == Adopt(old(State()), prefixBlocks, blockSize, maxSeqLen)
      ensures dBlockTable == old(dBlockTable) || fresh(dBlockTable)
    {
      if cursor != 0 || blockTable != [] || dBlockTable != null {
        return false;
      }
      if prefixBlocks == [] {
        return false;
      }
      var matchedLen := |prefixBlocks| * blockSize;
      if matchedLen >= maxSeqLen {
        return false;
      }
      adopted := true;
      cursor := matchedLen;
      CeilIs(matchedLen, blockSize, |prefixBlocks|);
      CeilMono(matchedLen, maxSeqLen, blockSize);
      ok := Mirror(prefixBlocks);
    }

    /** The slot mapping of the last `n` tokens, as `write` builds it. */
    method SlotMapping(n: nat) returns (slots: seq<nat>)
      requires Valid() && n <= cursor && CeilDiv(cursor, blockSize) <= |blockTable|
      ensures Maps(blockTable, cursor - n, blockSize, slots, n)
    {
      hide Blk, Off, CeilDiv;
      slots := [];
      var before := cursor - n;
      var i := 0;
      while i < n
        invariant 0 <= i <= n && Maps(blockTable, before, blockSize, slots, i)
      {
        BlkInTable(before + i, cursor, blockSize);
        ghost var was := slots;
        slots := slots + [blockTable[Blk(before + i, blockSize)] * blockSize + Off(before + i, blockSize)];
        MapsNext(blockTable, before, blockSize, was, i, slots);
        i := i + 1;
      }
    }
  }

  /** Entry `i` is the slot of position `from + i`. */
  ghost predicate SlotAt(table: seq<nat>, from: nat, bs: nat, slots: seq<nat>, i: nat)
    requires bs > 0
  {
    i < |slots| && Blk(from + i, bs) < |table| && slots[i] == Slot(table, from + i, bs)
  }

  /** `slots` are those of `n` consecutive positions starting at `from`. */
  ghost predicate Maps(table: seq<nat>, from: nat, bs: nat, slots: seq<nat>, n: nat)
    requires bs > 0
  {
    |slots| == n && forall i :: 0 <= i < n ==> SlotAt(table, from, bs, slots, i)
  }

  lemma MapsNext(table: seq<nat>, from: nat, bs: nat, slots: seq<nat>, n: nat, more: seq<nat>)
    requires bs > 0 && Maps(table, from, bs, slots, n) && Blk(from + n, bs) < |table|
    requires more == slots + [Slot(table, from + n, bs)]
    ensures Maps(table, from, bs, more, n + 1)
  {
    hide Slot, Blk;
    forall i | 0 <= i < n + 1 ensures SlotAt(table, from, bs, more, i) {
      if i < n { assert SlotAt(table, from, bs, slots, i); }
    }
  }

  lemma BlkInTable(p: nat, n: nat, bs: nat)
    requires bs > 0 && p < n
    ensures Blk(p, bs) < CeilDiv(n, bs)
  {
    PosInTable(p, n, bs);
  }

  /** Distinct positions of one table, or of two tables with no block in common, get distinct slots. */
  lemma SlotsDistinct(a: seq<nat>, b: seq<nat>, p: nat, q: nat, bs: nat)
    requires bs > 0 && Blk(p, bs) < |a| && Blk(q, bs) < |b|
    requires a[Blk(p, bs)] == b[Blk(q, bs)] ==> Blk(p, bs) == Blk(q, bs) && p != q
    ensures Slot(a, p, bs) != Slot(b, q, bs)
  {
    hide Blk, Off;
    SlotParts(a, p, bs);
    SlotParts(b, q, bs);
    if Slot(a, p, bs) == Slot(b, q, bs) {
      BlkOffDistinct(p, q, bs);
      assert false;
    }
  }

  /** A slot determines the physical block and the offset. */
  lemma SlotParts(a: seq<nat>, p: nat, bs: nat)
    requires bs > 0 && Blk(p, bs) < |a|
    ensures Blk(Slot(a, p, bs), bs) == a[Blk(p, bs)] && Off(Slot(a, p, bs), bs) == Off(p, bs)
  {
    hide Blk, Off;
    BlkOffOf(a[Blk(p, bs)], Off(p, bs), bs);
  }

  /** A table that still fits, kept by a decode: the capacity covers every cursor up to the limit. */
  lemma DecodeFits(kv: Kv, pool: Pool, bs: nat, maxLen: nat)
    requires bs >= 2 && KvOk(kv, bs) && PrepareMeta(kv, pool, 1, true, bs, maxLen).ok
    ensures |PrepareMeta(kv, pool, 1, true, bs, maxLen).kv.table| <= CeilDiv(maxLen, bs)
  {
    DecodeKeeps(kv, pool, bs, maxLen);
    CeilMono(kv.cursor + 1, maxLen, bs);
  }

  /**
   A prefill keeps the table within the device capacity exactly when the resulting cursor needs no
   more blocks than the length limit does. On a fresh cache this always holds; after an adopted
   prefix only the residual length is checked, so it can fail.
   */
  lemma PrefillFitsIff(kv: Kv, pool: Pool, len: nat, bs: nat, maxLen: nat)
    requires bs > 0 && KvOk(kv, bs) && kv.cursor == |kv.table| * bs
    requires PrepareMeta(kv, pool, len, false, bs, maxLen).ok
    ensures |PrepareMeta(kv, pool, len, false, bs, maxLen).kv.table| <= CeilDiv(maxLen, bs)
      <==> kv.cursor + len <= CeilDiv(maxLen, bs) * bs
    ensures kv.cursor + len <= maxLen ==> |PrepareMeta(kv, pool, len, false, bs, maxLen).kv.table| <= CeilDiv(maxLen, bs)
    ensures kv.cursor == 0 ==> |PrepareMeta(kv, pool, len, false, bs, maxLen).kv.table| <= CeilDiv(maxLen, bs)
  {
    PrefillKeeps(kv, pool, len, bs, maxLen);
    FitsIff(kv.cursor + len, maxLen, bs);
    hide CeilDiv;
    if kv.cursor == 0 { CeilMono(len, maxLen, bs); }
  }

  lemma FitsIff(n: nat, maxLen: nat, bs: nat)
    requires bs > 0
    ensures CeilDiv(n, bs) <= CeilDiv(maxLen, bs) <==> n <= CeilDiv(maxLen, bs) * bs
    ensures n <= maxLen ==> CeilDiv(n, bs) <= CeilDiv(maxLen, bs)
  {
    var k, c := CeilDiv(n, bs), CeilDiv(maxLen, bs);
    CeilBounds(n, bs);
    if n <= maxLen { CeilMono(n, maxLen, bs); }
    hide CeilDiv;
    if k <= c { MulMono(k, c, bs); } else { MulMono(c + 1, k, bs); }
  }

  /** The failing family is inhabited: a limit of 4, blocks of 2, one block adopted, three tokens more. */
  lemma ExtendOverruns()
    ensures var kv, pool := Kv(2, [0], true, true), Pool([1, 0, 0], [1, 2]);
      && KvOk(kv, 2) && kv.cursor == |kv.table| * 2
      && PrepareMeta(kv, pool, 3, false, 2, 4).ok
      && |PrepareMeta(kv, pool, 3, false, 2, 4).kv.table| > CeilDiv(4, 2)
  {}

  // ---------------------------------------------------------------- the life of one cache

  datatype CacheOp = Adopting(blocks: seq<nat>) | Prefilling(len: nat) | Decoding | Resetting

  /** One operation on the cache; adopted blocks were forked by the caller, and reset gives none back. */
  function Do(kv: Kv, pool: Pool, op: CacheOp, bs: nat, maxLen: int): Prep
    requires bs > 0
  {
    match op
    case Adopting(blocks) => var (ok, next) := Adopt(kv, blocks, bs, maxLen); Prep(ok, next, pool)
    case Prefilling(len) => PrepareMeta(kv, pool, len, false, bs, maxLen)
    case Decoding => PrepareMeta(kv, pool, 1, true, bs, maxLen)
    case Resetting => Prep(true, FRESH, pool)
  }

  /** Operations in order, up to the first that fails. */
  function Life(kv: Kv, pool: Pool, ops: seq<CacheOp>, bs: nat, maxLen: int): Prep
    requires bs > 0
    decreases ops
  {
    if ops == [] then Prep(true, kv, pool)
    else
      var r := Do(kv, pool, ops[0], bs, maxLen);
      if r.ok then Life(r.kv, r.pool, ops[1..], bs, maxLen) else r
  }

  /** A prefill comes first, or right after an adoption, and stays within the length limit. */
  predicate InTurn(kv: Kv, op: CacheOp, bs: nat, maxLen: int) {
    op.Prefilling? ==> kv.cursor == |kv.table| * bs && kv.cursor + op.len <= maxLen
  }

  predicate AllInTurn(kv: Kv, pool: Pool, ops: seq<CacheOp>, bs: nat, maxLen: int)
    requires bs > 0
    decreases ops
  {
    ops == [] ||
    (InTurn(kv, ops[0], bs, maxLen)
     && var r := Do(kv, pool, ops[0], bs, maxLen); r.ok ==> AllInTurn(r.kv, r.pool, ops[1..], bs, maxLen))
  }

  /** What a successful operation leaves: exactly the blocks the cursor needs, within the device copy. */
  predicate InStep(kv: Kv, bs: nat, maxLen: nat)
    requires bs > 0
  {
    KvOk(kv, bs) && kv.cursor <= maxLen && |kv.table| <= CeilDiv(maxLen, bs)
  }

  lemma PrefillInStep(kv: Kv, pool: Pool, len: nat, bs: nat, maxLen: nat)
    requires bs >= 2 && KvOk(kv, bs) && kv.cursor == |kv.table| * bs && kv.cursor + len <= maxLen
    requires PrepareMeta(kv, pool, len, false, bs, maxLen).ok
    ensures var r := PrepareMeta(kv, pool, len, false, bs, maxLen);
      InStep(r.kv, bs, maxLen) && |r.pool.free| + |r.kv.table| == |pool.free| + |kv.table|
  {
    PrefillKeeps(kv, pool, len, bs, maxLen);
    PrefillFitsIff(kv, pool, len, bs, maxLen);
    TakenSize(pool, CeilDiv(len, bs));
    hide CeilDiv, Alloc;
  }

  lemma TakenSize(pool: Pool, k: nat)
    requires k <= |pool.free|
    ensures |Alloc(pool, k).free| == |pool.free| - k && |pool.free[..k]| == k
  {}

  lemma DecodeInStep(kv: Kv, pool: Pool, bs: nat, maxLen: nat)
    requires bs >= 2 && KvOk(kv, bs) && kv.cursor <= maxLen && PrepareMeta(kv, pool, 1, true, bs, maxLen).ok
    ensures var r := PrepareMeta(kv, pool, 1, true, bs, maxLen);
      InStep(r.kv, bs, maxLen) && |r.pool.free| + |r.kv.table| == |pool.free| + |kv.table|
  {
    DecodeKeeps(kv, pool, bs, maxLen);
    DecodeFits(kv, pool, bs, maxLen);
    var k := CeilDiv(kv.cursor + 1, bs) - |kv.table|;
    TakenSize(pool, k);
    hide CeilDiv, Alloc;
  }

  lemma AdoptInStep(kv: Kv, blocks: seq<nat>, bs: nat, maxLen: nat)
    requires bs >= 2 && KvOk(kv, bs) && kv.cursor <= maxLen && Adopt(kv, blocks, bs, maxLen).0
    ensures InStep(Adopt(kv, blocks, bs, maxLen).1, bs, maxLen)
  {
    AdoptKeeps(kv, blocks, bs, maxLen);
    CeilMono(|blocks| * bs, maxLen, bs);
    hide CeilDiv;
  }

  lemma FreshInStep(bs: nat, maxLen: nat)
    requires bs > 0
    ensures InStep(FRESH, bs, maxLen)
  {
    CeilIs(0, bs, 0);
  }

  /** An operation that succeeds leaves the cache in step; metadata takes from the pool exactly the blocks it adds. */
  lemma DoKeeps(kv: Kv, pool: Pool, op: CacheOp, bs: nat, maxLen: nat)
    requires bs >= 2 && KvOk(kv, bs) && kv.cursor <= maxLen && InTurn(kv, op, bs, maxLen) && Do(kv, pool, op, bs, maxLen).ok
    ensures var r := Do(kv, pool, op, bs, maxLen);
      && InStep(r.kv, bs, maxLen)
      && (op.Prefilling? || op.Decoding? ==> |r.pool.free| + |r.kv.table| == |pool.free| + |kv.table|)
  {
    hide InStep, KvOk, PrepareMeta, Adopt;
    match op
    case Adopting(blocks) => AdoptInStep(kv, blocks, bs, maxLen);
    case Prefilling(len) => PrefillInStep(kv, pool, len, bs, maxLen);
    case Decoding => DecodeInStep(kv, pool, bs, maxLen);
    case Resetting => FreshInStep(bs, maxLen);
  }

  /** So over its whole life, reuse after a reset included, a cache has exactly the blocks its cursor needs. */
  lemma {:induction false} LifeKeeps(kv: Kv, pool: Pool, ops: seq<CacheOp>, bs: nat, maxLen: nat)
    requires bs >= 2 && KvOk(kv, bs) && kv.cursor <= maxLen && AllInTurn(kv, pool, ops, bs, maxLen) && Life(kv, pool, ops, bs, maxLen).ok
    ensures var r := Life(kv, pool, ops, bs, maxLen); KvOk(r.kv, bs) && r.kv.cursor <= maxLen
    decreases ops
  {
    if ops != [] {
      DoKeeps(kv, pool, ops[0], bs, maxLen);
      var r := Do(kv, pool, ops[0], bs, maxLen);
      LifeKeeps(r.kv, r.pool, ops[1..], bs, maxLen);
    }
  }

  /** The object lives that life: adopt, prefill, decode, reset, in place, the device copy always up to date. */
  method Live(c: PagedKVCache, bm: B.BlockManager, ops: seq<CacheOp>) returns (ok: bool)
    requires c.Valid() && bm.Valid() && bm.blockSize == c.blockSize >= 2 && bm.numLayers > 0 && bm.refCnt != c.dBlockTable
    requires KvOk(c.State(), c.blockSize) && c.cursor <= c.maxSeqLen
    requires AllInTurn(c.State(), bm.State(), ops, c.blockSize, c.maxSeqLen)
    modifies c, c.dBlockTable, bm, bm.refCnt, bm.prevFree, bm.nextFree
    ensures c.Valid() && bm.Valid()
    ensures var r := Life(old(c.State()), old(bm.State()), ops, c.blockSize, c.maxSeqLen);
      ok == r.ok && c.State() == r.kv && bm.State() == r.pool
    ensures ok ==> KvOk(c.State(), c.blockSize) && c.cursor <= c.maxSeqLen
  {
    hide PoolOk, B.Linked, B.Chain, CeilDiv, Alloc, PrepareMeta, B.BlockManager.Valid;
    ghost var kv, pool := c.State(), bm.State();
    var i := 0;
    while i < |ops|
      invariant 0 <= i <= |ops| && c.Valid() && bm.Valid()
      invariant c.dBlockTable == null || c.dBlockTable == old(c.dBlockTable) || fresh(c.dBlockTable)
      invariant KvOk(c.State(), c.blockSize) && c.cursor <= c.maxSeqLen
      invariant AllInTurn(c.State(), bm.State(), ops[i..], c.blockSize, c.maxSeqLen)
      invariant Life(c.State(), bm.State(), ops[i..], c.blockSize, c.maxSeqLen) == Life(kv, pool, ops, c.blockSize, c.maxSeqLen)
    {
      ghost var now, p := c.State(), bm.State();
      assert ops[i..][1..] == ops[i + 1..];
      ok := LiveOnce(c, bm, ops[i]);
      if !ok {
        return;
      }
      DoKeeps(now, p, ops[i], c.blockSize, c.maxSeqLen);
      i := i + 1;
    }
    ok := true;
  }

  method LiveOnce(c: PagedKVCache, bm: B.BlockManager, op: CacheOp) returns (ok: bool)
    requires c.Valid() && bm.Valid() && bm.blockSize == c.blockSize >= 2 && bm.numLayers > 0 && bm.refCnt != c.dBlockTable
    requires KvOk(c.State(), c.blockSize) && c.cursor <= c.maxSeqLen && InTurn(c.State(), op, c.blockSize, c.maxSeqLen)
    modifies c, c.dBlockTable, bm, bm.refCnt, bm.prevFree, bm.nextFree
    ensures c.Valid() && bm.Valid()
    ensures var r := Do(old(c.State()), old(bm.State()), op, c.blockSize, c.maxSeqLen);
      ok == r.ok && c.State() == r.kv && bm.State() == r.pool
    ensures c.dBlockTable == null || c.dBlockTable == old(c.dBlockTable) || fresh(c.dBlockTable)
  {
    hide PoolOk, B.Linked, B.Chain, CeilDiv, Alloc, PrepareMeta, B.BlockManager.Valid;
    ghost var kv, pool := c.State(), bm.State();
    var outcome;
    match op {
      case Adopting(blocks) =>
        ok := c.AdoptPrefix(blocks);
      case Prefilling(len) =>
        outcome := c.PrepareMeta(0, bm, len, false);
        ok := outcome == Done;
        if outcome == Overrun { DoKeeps(kv, pool, op, c.blockSize, c.maxSeqLen); }
      case Decoding =>
        outcome := c.PrepareMeta(0, bm, 1, true);
        ok := outcome == Done;
        if outcome == Overrun { DoKeeps(kv, pool, op, c.blockSize, c.maxSeqLen); }
      case Resetting =>
        c.Reset();
        ok := true;
    }
  }
}
