/**
 The state machine's batches are what the storage expects. In every reachable state, once the metadata
 of a pass is done, the slot mapping of the batch is defined, its blocks are in the pool, and every
 block that gets a new token belongs to one position range of one request only.
 */
module ServingSlots {
  import opened Basics
  import opened Tokens
  import opened PoolSpec
  import opened CacheSpec
  import opened RadixSpec
  import opened RadixUpdate
  import opened RadixInsertEvict
  import opened ServingState
  import opened ServingCore
  import opened Serving
  import opened ServingAdmit
  import opened ServingForward
  import opened ServingContent
  import opened ServingSound
  import opened ServingRun
  import B = PagedBatch

  /** The caches of the batch, in its order. */
  function BatchCaches(rs: seq<Req>): (r: seq<Kv>)
    ensures |r| == |rs|
  {
    seq(|rs|, i requires 0 <= i < |rs| => rs[i].kv)
  }

  /** Where each request's new tokens lie in the batch. */
  function BatchCu(cfg: Config, rs: seq<Req>, decode: bool): (cu: seq<nat>)
    ensures |cu| == |rs| + 1 && cu[0] == 0
    decreases |rs|
  {
    if rs == [] then [0]
    else
      var cu := BatchCu(cfg, rs[..|rs| - 1], decode);
      cu + [cu[|rs| - 1] + |NewToks(cfg, rs[|rs| - 1], decode)|]
  }

  lemma {:induction false} CuNext(cfg: Config, rs: seq<Req>, decode: bool, s: nat)
    requires s < |rs|
    ensures BatchCu(cfg, rs, decode)[s + 1] == BatchCu(cfg, rs, decode)[s] + |NewToks(cfg, rs[s], decode)|
    decreases |rs|
  {
    hide NewToks;
    if s < |rs| - 1 {
      CuNext(cfg, rs[..|rs| - 1], decode, s);
    }
  }

  lemma {:induction false} CuMonotone(cfg: Config, rs: seq<Req>, decode: bool, s: nat, t: nat)
    requires s <= t <= |rs|
    ensures BatchCu(cfg, rs, decode)[s] <= BatchCu(cfg, rs, decode)[t]
    decreases t
  {
    hide NewToks;
    if s < t {
      CuMonotone(cfg, rs, decode, s, t - 1);
      CuNext(cfg, rs, decode, t - 1);
    }
  }

  lemma CuSegments(cfg: Config, rs: seq<Req>, decode: bool)
    ensures B.Segments(BatchCu(cfg, rs, decode), |rs|)
  {
    forall s: nat, t: nat | s <= t <= |rs| ensures BatchCu(cfg, rs, decode)[s] <= BatchCu(cfg, rs, decode)[t] {
      CuMonotone(cfg, rs, decode, s, t);
    }
  }

  /** A prepared request's new tokens are its last ones. */
  lemma NewLength(cfg: Config, r: Req, decode: bool)
    requires ConfigOk(cfg) && Prepared(cfg, r)
    ensures From(cfg, r, decode) + |NewToks(cfg, r, decode)| == r.kv.cursor
    ensures CeilDiv(r.kv.cursor, cfg.bs) <= |r.kv.table|
  {}

  lemma CutLength(cfg: Config, rs: seq<Req>, decode: bool, s: nat)
    requires ConfigOk(cfg) && s < |rs| && Prepared(cfg, rs[s])
    ensures B.Length(BatchCu(cfg, rs, decode), s) == rs[s].kv.cursor - From(cfg, rs[s], decode) >= 0
  {
    CuNext(cfg, rs, decode, s);
    NewLength(cfg, rs[s], decode);
  }

  lemma SlotsDefined(cfg: Config, rs: seq<Req>, decode: bool)
    requires ConfigOk(cfg) && forall s {:trigger rs[s]} :: 0 <= s < |rs| ==> Prepared(cfg, rs[s])
    ensures B.BatchOk(BatchCaches(rs), BatchCu(cfg, rs, decode), cfg.bs)
  {
    hide Prepared, From, NewToks, CeilDiv;
    var caches, cu := BatchCaches(rs), BatchCu(cfg, rs, decode);
    CuSegments(cfg, rs, decode);
    forall s {:trigger caches[s]} | 0 <= s < |caches|
      ensures B.Length(cu, s) <= caches[s].cursor && CeilDiv(caches[s].cursor, cfg.bs) <= |caches[s].table|
    {
      assert Prepared(cfg, rs[s]);
      CutLength(cfg, rs, decode, s);
      NewLength(cfg, rs[s], decode);
    }
  }

  /** Token `i` of request `s` goes to a block that occurs nowhere else. */
  lemma TokenAlone(cfg: Config, u: Sys, start: nat, decode: bool, s: nat, i: nat, r: nat, j: nat)
    requires ConfigOk(cfg) && Safe(cfg, u) && start <= |u.running|
    requires forall m {:trigger u.running[m]} :: start <= m < |u.running| ==> Prepared(cfg, u.running[m])
    requires B.BatchOk(BatchCaches(u.running[start..]), BatchCu(cfg, u.running[start..], decode), cfg.bs)
    requires var (caches, cu) := (BatchCaches(u.running[start..]), BatchCu(cfg, u.running[start..], decode));
      && s < |caches| && i < B.Length(cu, s) && r < |caches| && j < |caches[r].table|
      && B.BlockOf(caches, cu, cfg.bs, s, i) == caches[r].table[j]
    requires u.running[start + s].shared * cfg.bs <= From(cfg, u.running[start + s], decode)
    ensures r == s && j == Blk(B.Position(BatchCaches(u.running[start..]), BatchCu(cfg, u.running[start..], decode), s, i), cfg.bs)
  {
    hide Safe, Prepared, From, NewToks, Blk, Held, B.BatchOk;
    var rs := u.running[start..];
    var caches, cu := BatchCaches(rs), BatchCu(cfg, rs, decode);
    assert Prepared(cfg, rs[s]) && rs[s] == u.running[start + s] && rs[r] == u.running[start + r];
    CutLength(cfg, rs, decode, s);
    B.TokenSlotIs(caches, cu, cfg.bs, s, i);
    var p := B.Position(caches, cu, s, i);
    OwnWrite(cfg, u, start + s, decode, p);
  }

  lemma OwnWrite(cfg: Config, u: Sys, i: nat, decode: bool, p: nat)
    requires ConfigOk(cfg) && Safe(cfg, u) && i < |u.running| && Prepared(cfg, u.running[i])
    requires u.running[i].shared * cfg.bs <= From(cfg, u.running[i], decode) <= p < u.running[i].kv.cursor
    ensures var r := u.running[i]; var j := Blk(p, cfg.bs);
      && j < |r.kv.table|
      && (forall k :: 0 <= k < |r.kv.table| && k != j ==> r.kv.table[k] != r.kv.table[j])
      && (forall m, k :: 0 <= m < |u.running| && m != i && 0 <= k < |u.running[m].kv.table| ==> u.running[m].kv.table[k] != r.kv.table[j])
  {
    hide Held;
    WritesAreExclusive(cfg, u, i, decode, p);
  }

  /** For every reachable batch: its slots are defined, in the pool, and exclusive. */
  lemma BatchesAreExclusive(cfg: Config, n: nat, acts: seq<Action>)
    requires ConfigOk(cfg)
    requires var s := Run(cfg, n, acts);
      && !s.fault && !s.pc.Idle? && 0 <= BatchStart(s) <= |s.running|
      && PrepareFrom(cfg, s, BatchStart(s), |s.running|, s.pc.Decoding?).0
    ensures var s := Run(cfg, n, acts); var u := PrepareFrom(cfg, s, BatchStart(s), |s.running|, s.pc.Decoding?).1;
      |u.running| == |s.running|
      && var (caches, cu) := (BatchCaches(u.running[BatchStart(s)..]), BatchCu(cfg, u.running[BatchStart(s)..], s.pc.Decoding?));
      && B.BatchOk(caches, cu, cfg.bs) && B.Exclusive(caches, cu, cfg.bs)
      && forall r, j {:trigger caches[r].table[j]} :: 0 <= r < |caches| && 0 <= j < |caches[r].table| ==> caches[r].table[j] < |u.pool.ref|
  {
    var s := Run(cfg, n, acts);
    var decode := s.pc.Decoding?;
    hide Run, Inv, Funded, Preparing, PrepareFrom, Safe, Blk, Prepared, From, B.BatchOk, Fresh;
    BatchFresh(cfg, s);
    var k := BatchStart(s);
    PrepareAll(cfg, s, k, k, |s.running|, decode);
    PrepareSame(cfg, s, k, |s.running|, decode);
    var u := PrepareFrom(cfg, s, k, |s.running|, decode).1;
    PreparingDone(cfg, u, k, decode);
    FreshShared(cfg, s, u, k, decode);
    SlotsExclusive(cfg, u, k, decode);
  }

  lemma SlotsExclusive(cfg: Config, u: Sys, k: nat, decode: bool)
    requires ConfigOk(cfg) && Safe(cfg, u) && k <= |u.running|
    requires forall m {:trigger u.running[m]} :: k <= m < |u.running| ==> Prepared(cfg, u.running[m])
    requires forall j {:trigger u.running[j]} :: k <= j < |u.running| ==> u.running[j].shared * cfg.bs <= From(cfg, u.running[j], decode)
    ensures var (caches, cu) := (BatchCaches(u.running[k..]), BatchCu(cfg, u.running[k..], decode));
      && B.BatchOk(caches, cu, cfg.bs) && B.Exclusive(caches, cu, cfg.bs)
      && forall r, j {:trigger caches[r].table[j]} :: 0 <= r < |caches| && 0 <= j < |caches[r].table| ==> caches[r].table[j] < |u.pool.ref|
  {
    hide Safe, Prepared, From, B.BatchOk, B.Exclusive, BatchCu;
    SlotsDefined(cfg, u.running[k..], decode);
    SlotsAlone(cfg, u, k, decode);
    var caches := BatchCaches(u.running[k..]);
    forall r, j {:trigger caches[r].table[j]} | 0 <= r < |caches| && 0 <= j < |caches[r].table| ensures caches[r].table[j] < |u.pool.ref| {
      RunningInPool(cfg, u, k + r, j);
    }
  }

  lemma RunningInPool(cfg: Config, u: Sys, i: nat, j: nat)
    requires ConfigOk(cfg) && Safe(cfg, u) && i < |u.running| && j < |u.running[i].kv.table|
    ensures u.running[i].kv.table[j] < |u.pool.ref|
  {
    hide Core;
    TableInPool(cfg, u.pool, u.tree, u.running, i, j, u.lost);
  }

  /** Block `j` of sequence `r` is not where token `i` of sequence `s` goes, unless it is that very position's block. */
  ghost predicate Alone(caches: seq<Kv>, cu: seq<nat>, bs: nat, s: nat, i: nat, r: nat, j: nat)
    requires bs > 0 && B.BatchOk(caches, cu, bs) && s < |caches| && i < B.Length(cu, s) && r < |caches| && j < |caches[r].table|
  {
    B.TokenSlotIs(caches, cu, bs, s, i);
    B.BlockOf(caches, cu, bs, s, i) == caches[r].table[j] ==> r == s && j == Blk(B.Position(caches, cu, s, i), bs)
  }

  lemma AloneExclusive(caches: seq<Kv>, cu: seq<nat>, bs: nat)
    requires bs > 0 && B.BatchOk(caches, cu, bs)
    requires forall s: nat, i: nat, r: nat, j: nat :: s < |caches| && i < B.Length(cu, s) && r < |caches| && j < |caches[r].table| ==>
      Alone(caches, cu, bs, s, i, r, j)
    ensures B.Exclusive(caches, cu, bs)
  {
    hide Blk, Off, CeilDiv;
    forall s, i, r, j {:trigger B.BlockOf(caches, cu, bs, s, i), caches[r].table[j]} |
      0 <= s < |caches| && 0 <= i < B.Length(cu, s) && 0 <= r < |caches| && 0 <= j < |caches[r].table|
      && B.BlockOf(caches, cu, bs, s, i) == caches[r].table[j]
      ensures B.Position(caches, cu, s, i) >= 0 && r == s && j == Blk(B.Position(caches, cu, s, i), bs)
    {
      B.TokenSlotIs(caches, cu, bs, s, i);
      assert Alone(caches, cu, bs, s, i, r, j);
    }
  }

  lemma SlotsAlone(cfg: Config, u: Sys, k: nat, decode: bool)
    requires ConfigOk(cfg) && Safe(cfg, u) && k <= |u.running|
    requires forall m {:trigger u.running[m]} :: k <= m < |u.running| ==> Prepared(cfg, u.running[m])
    requires forall j {:trigger u.running[j]} :: k <= j < |u.running| ==> u.running[j].shared * cfg.bs <= From(cfg, u.running[j], decode)
    requires B.BatchOk(BatchCaches(u.running[k..]), BatchCu(cfg, u.running[k..], decode), cfg.bs)
    ensures B.Exclusive(BatchCaches(u.running[k..]), BatchCu(cfg, u.running[k..], decode), cfg.bs)
  {
    hide Safe, Blk, Prepared, From, B.BatchOk, B.BlockOf, B.Position, B.TokenSlot, BatchCu, BatchCaches, B.Exclusive;
    var caches, cu := BatchCaches(u.running[k..]), BatchCu(cfg, u.running[k..], decode);
    forall s: nat, i: nat, r: nat, j: nat | s < |caches| && i < B.Length(cu, s) && r < |caches| && j < |caches[r].table|
      ensures Alone(caches, cu, cfg.bs, s, i, r, j)
    {
      if B.BlockOf(caches, cu, cfg.bs, s, i) == caches[r].table[j] {
        assert u.running[k + s].shared * cfg.bs <= From(cfg, u.running[k + s], decode);
        TokenAlone(cfg, u, k, decode, s, i, r, j);
      }
    }
    AloneExclusive(caches, cu, cfg.bs);
  }
}
