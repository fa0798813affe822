/**
 One request's paged cache as a value: the number of tokens held, the logical-to-physical block
 table, whether the device copy of the table exists, and whether a prefix was adopted.
 */
module CacheSpec {
  import opened Tokens
  import opened PoolSpec

  datatype Kv = Kv(cursor: nat, table: seq<nat>, live: bool, adopted: bool)

  const FRESH: Kv := Kv(0, [], false, false)

  /** Outcome of one `prepare_meta`; on failure the state left behind is still reported. */
  datatype Prep = Prep(ok: bool, kv: Kv, pool: Pool)

  /** The metadata half of a write, at layer 0. */
  function PrepareMeta(kv: Kv, pool: Pool, len: int, decode: bool, bs: nat, maxLen: int): Prep
    requires bs > 0
  {
    if len >= maxLen || len < 0 then Prep(false, kv, pool)
    else if decode then
      if !kv.live || len != 1 || kv.cursor >= maxLen then Prep(false, kv, pool)
      else
        var up := kv.(cursor := kv.cursor + 1);
        if up.cursor % bs != 1 then Prep(true, up, pool)
        else if |pool.free| < 1 then Prep(false, up, pool)
        else Prep(true, up.(table := kv.table + pool.free[..1]), Alloc(pool, 1))
    else if kv.cursor > 0 && !kv.adopted then Prep(false, kv, pool)
    else
      var k := CeilDiv(len, bs);
      if |pool.free| < k then Prep(false, kv, pool)
      else if kv.cursor > 0 then
        Prep(true, kv.(cursor := kv.cursor + len, table := kv.table + pool.free[..k]), Alloc(pool, k))
      else
        Prep(true, kv.(cursor := len, table := pool.free[..k], live := true), Alloc(pool, k))
  }

  /** Install forked prefix blocks on a fresh cache. */
  function Adopt(kv: Kv, blocks: seq<nat>, bs: nat, maxLen: int): (r: (bool, Kv)) {
    if kv.cursor != 0 || kv.table != [] || kv.live || blocks == [] || |blocks| * bs >= maxLen then (false, kv)
    else (true, Kv(|blocks| * bs, blocks, true, true))
  }

  predicate KvOk(kv: Kv, bs: nat)
    requires bs > 0
  {
    |kv.table| == CeilDiv(kv.cursor, bs) && (kv.cursor > 0 ==> kv.live) && (kv.adopted ==> kv.cursor > 0)
  }

  /** Slot of position `p`: physical block times block size plus offset. */
  function Slot(table: seq<nat>, p: nat, bs: nat): nat
    requires bs > 0 && Blk(p, bs) < |table|
  {
    table[Blk(p, bs)] * bs + Off(p, bs)
  }

  lemma AdoptKeeps(kv: Kv, blocks: seq<nat>, bs: nat, maxLen: int)
    requires bs > 0 && KvOk(kv, bs)
    ensures KvOk(Adopt(kv, blocks, bs, maxLen).1, bs)
    ensures Adopt(kv, blocks, bs, maxLen).0 ==> Adopt(kv, blocks, bs, maxLen).1.cursor == |blocks| * bs < maxLen
  {
    CeilIs(|blocks| * bs, bs, |blocks|);
  }

  /** A first prefill, or one on an adopted prefix, covers exactly the tokens it was given. */
  lemma PrefillKeeps(kv: Kv, pool: Pool, len: nat, bs: nat, maxLen: int)
    requires bs > 0 && KvOk(kv, bs) && kv.cursor == |kv.table| * bs
    requires PrepareMeta(kv, pool, len, false, bs, maxLen).ok
    ensures var r := PrepareMeta(kv, pool, len, false, bs, maxLen);
      && KvOk(r.kv, bs) && r.kv.cursor == kv.cursor + len
      && r.kv.table == kv.table + pool.free[..CeilDiv(len, bs)]
      && r.pool == Alloc(pool, CeilDiv(len, bs))
      && CeilDiv(len, bs) == CeilDiv(kv.cursor + len, bs) - |kv.table|
  {
    CeilShift(kv.cursor + len, |kv.table|, bs);
    if kv.cursor == 0 { assert kv.table == [] by { if |kv.table| > 0 { MulMono(1, |kv.table|, bs); } } }
  }

  /** Decoding grows the table by a block exactly when a boundary is crossed. */
  lemma DecodeKeeps(kv: Kv, pool: Pool, bs: nat, maxLen: int)
    requires bs >= 2 && KvOk(kv, bs) && PrepareMeta(kv, pool, 1, true, bs, maxLen).ok
    ensures var r := PrepareMeta(kv, pool, 1, true, bs, maxLen);
      && KvOk(r.kv, bs) && r.kv.cursor == kv.cursor + 1
      && var k := CeilDiv(kv.cursor + 1, bs) - |kv.table|;
         0 <= k <= 1 && k <= |pool.free| && r.kv.table == kv.table + pool.free[..k] && r.pool == (if k == 0 then pool else Alloc(pool, k))
  {
    CeilNext(kv.cursor, bs);
    assert kv.table + pool.free[..0] == kv.table;
  }

  /** The boundary test is right for every block size but one. */
  lemma DecodeKeepsIff(kv: Kv, pool: Pool, bs: nat, maxLen: int)
    requires bs > 0 && KvOk(kv, bs) && PrepareMeta(kv, pool, 1, true, bs, maxLen).ok
    ensures KvOk(PrepareMeta(kv, pool, 1, true, bs, maxLen).kv, bs) <==> bs >= 2
  {
    if bs >= 2 {
      DecodeKeeps(kv, pool, bs, maxLen);
    } else {
      CeilIs(kv.cursor, 1, kv.cursor);
      CeilIs(kv.cursor + 1, 1, kv.cursor + 1);
    }
  }

  /**
   `adopted_` stays set after the first prefill, so a second one is not rejected. It keeps the
   table the right size exactly when no block is left part-filled, nothing part-filled is
   added, or the two part-filled ends together overflow a block.
   */
  lemma SecondPrefillIff(kv: Kv, pool: Pool, len: nat, bs: nat, maxLen: int)
    requires bs > 0 && KvOk(kv, bs) && kv.cursor > 0
    requires PrepareMeta(kv, pool, len, false, bs, maxLen).ok
    ensures KvOk(PrepareMeta(kv, pool, len, false, bs, maxLen).kv, bs)
      <==> kv.cursor % bs == 0 || len % bs == 0 || kv.cursor % bs + len % bs > bs
  {
    CeilOfSumIff(kv.cursor, len, bs);
    hide CeilDiv;
  }

  lemma CeilOfSumIff(a: nat, b: nat, bs: nat)
    requires bs > 0
    ensures CeilDiv(a + b, bs) == CeilDiv(a, bs) + CeilDiv(b, bs) <==> a % bs == 0 || b % bs == 0 || a % bs + b % bs > bs
  {
    hide CeilDiv;
    DivBounds(a, bs);
    DivBounds(b, bs);
    CeilOfSum(a / bs, a % bs, b / bs, b % bs, bs);
  }

  /** A remainder needs one block more, unless it is empty. */
  lemma CeilOfParts(q: nat, r: nat, bs: nat)
    requires bs > 0 && r < bs
    ensures CeilDiv(q * bs + r, bs) == q + if r == 0 then 0 else 1
  {
    var c := if r == 0 then 0 else 1;
    assert (q + c) * bs == q * bs + c * bs;
    CeilIs(q * bs + r, bs, q + c);
  }

  lemma CeilOfSum(q: nat, r: nat, p: nat, m: nat, bs: nat)
    requires bs > 0 && r < bs && m < bs
    ensures var a, b := q * bs + r, p * bs + m;
      CeilDiv(a + b, bs) == CeilDiv(a, bs) + CeilDiv(b, bs) <==> r == 0 || m == 0 || r + m > bs
  {
    var over := if r + m < bs then 0 else 1;
    SumParts(q, p, over, bs);
    CeilOfParts(q, r, bs);
    CeilOfParts(p, m, bs);
    CeilOfParts(q + p + over, r + m - over * bs, bs);
    hide CeilDiv;
    assert q * bs + r + (p * bs + m) == (q + p + over) * bs + (r + m - over * bs);
  }

  lemma SumParts(q: nat, p: nat, over: nat, bs: nat)
    ensures (q + p + over) * bs == q * bs + p * bs + over * bs
  {}

  /**
   When a prefill is accepted: the length is below the limit, the cache is empty or holds an adopted prefix, and
   the blocks are there. A rejected one changes nothing.
   */
  lemma PrefillAccepts(kv: Kv, pool: Pool, len: nat, bs: nat, maxLen: int)
    requires bs > 0 && KvOk(kv, bs)
    ensures var r := PrepareMeta(kv, pool, len, false, bs, maxLen);
      && (r.ok <==> len < maxLen && (kv.cursor == 0 || kv.adopted) && CeilDiv(len, bs) <= |pool.free|)
      && (!r.ok ==> r.kv == kv && r.pool == pool)
  {
    hide CeilDiv;
  }

  /**
   When a decode is accepted: the cache is live and below the limit, and there is a free block if the token
   needs one. Where only the block is missing the cursor has moved on already; table and pool are as before.
   */
  lemma DecodeAccepts(kv: Kv, pool: Pool, bs: nat, maxLen: int)
    requires bs >= 2 && KvOk(kv, bs)
    ensures var r := PrepareMeta(kv, pool, 1, true, bs, maxLen);
      var room, more := 1 < maxLen && kv.live && kv.cursor < maxLen, CeilDiv(kv.cursor + 1, bs) > CeilDiv(kv.cursor, bs);
      && (r.ok <==> room && (more ==> pool.free != []))
      && (!r.ok ==> r.kv == kv.(cursor := if room then kv.cursor + 1 else kv.cursor) && r.pool == pool)
  {
    CeilNext(kv.cursor, bs);
    hide CeilDiv;
  }

  /** A prefix is adopted by a fresh cache only, if it is not empty and shorter than the limit; otherwise nothing changes. */
  lemma AdoptAccepts(kv: Kv, blocks: seq<nat>, bs: nat, maxLen: int)
    requires bs > 0 && KvOk(kv, bs) && maxLen > 0
    ensures Adopt(FRESH, blocks, bs, maxLen).0 <==> 0 < |blocks| && |blocks| * bs < maxLen
    ensures Adopt(kv, blocks, bs, maxLen).0 ==> kv == FRESH && Adopt(kv, blocks, bs, maxLen).1.table == blocks
    ensures !Adopt(kv, blocks, bs, maxLen).0 ==> Adopt(kv, blocks, bs, maxLen).1 == kv
  {}
}
