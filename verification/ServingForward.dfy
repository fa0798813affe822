/**
 The forward pass of a batch: metadata for every request, then the new cells, then one sampled
 token each; a failing pass drops every request; finished requests are recorded and leave.
 */
module ServingForward {
  import opened Basics
  import opened Tokens
  import opened PoolSpec
  import opened CacheSpec
  import opened RadixSpec
  import opened RadixUpdate
  import opened RadixInsertEvict
  import opened ServingState
  import opened ServingCore
  import opened Serving

  // ---------------------------------------------------------------- prepare_meta over the batch

  /** Metadata done: the table covers every token of the sequence. */
  predicate Prepared(cfg: Config, r: Req)
    requires ConfigOk(cfg)
  {
    && r.prompt != [] && KvOk(r.kv, cfg.bs) && r.kv.live
    && r.kv.cursor == |r.Seq()| && r.shared * cfg.bs < |r.Seq()|
  }

  /** First position the pass writes for `r`. */
  function From(cfg: Config, r: Req, decode: bool): nat {
    if !decode then r.shared * cfg.bs else if |r.Seq()| > 0 then |r.Seq()| - 1 else 0
  }

  /** The tokens it runs through the model. */
  function NewToks(cfg: Config, r: Req, decode: bool): seq<Token> {
    var w := From(cfg, r, decode);
    if w <= |r.Seq()| then r.Seq()[w..] else []
  }

  /** What a request of the batch looks like before its metadata is done. */
  ghost predicate Fresh(cfg: Config, r: Req, decode: bool)
    requires ConfigOk(cfg)
  {
    if decode then Ready(cfg, r) && r.phase == Running else Pending(cfg, r)
  }

  function PrepOf(cfg: Config, s: Sys, i: nat, decode: bool): Prep
    requires ConfigOk(cfg) && i < |s.running|
  {
    var r := s.running[i];
    PrepareMeta(r.kv, s.pool, if decode then 1 else |r.Seq()| - r.kv.cursor, decode, cfg.bs, cfg.maxLen)
  }

  function WithPrep(cfg: Config, s: Sys, i: nat, decode: bool): Sys
    requires ConfigOk(cfg) && i < |s.running|
  {
    var p := PrepOf(cfg, s, i, decode);
    s.(pool := p.pool, running := s.running[i := s.running[i].(kv := p.kv)])
  }

  /** Requests `i` up to `upto` of the running list, in order; stops at the first failure. */
  function PrepareFrom(cfg: Config, s: Sys, i: nat, upto: nat, decode: bool): (r: (bool, Sys))
    requires ConfigOk(cfg) && upto <= |s.running|
    decreases upto - i
  {
    if i >= upto then (true, s)
    else if !PrepOf(cfg, s, i, decode).ok then (false, WithPrep(cfg, s, i, decode))
    else PrepareFrom(cfg, WithPrep(cfg, s, i, decode), i + 1, upto, decode)
  }

  /** Metadata of one request: exactly the missing blocks are taken, and the table then fits. */
  lemma PrepareOne(cfg: Config, p: Pool, r: Req, decode: bool)
    requires ConfigOk(cfg) && Fresh(cfg, r, decode)
    requires PrepareMeta(r.kv, p, if decode then 1 else |r.Seq()| - r.kv.cursor, decode, cfg.bs, cfg.maxLen).ok
    ensures var m := PrepareMeta(r.kv, p, if decode then 1 else |r.Seq()| - r.kv.cursor, decode, cfg.bs, cfg.maxLen);
      var k := CeilDiv(|r.Seq()|, cfg.bs) - |r.kv.table|;
      && 0 <= k <= |p.free| && (decode ==> k <= 1) && (!decode ==> k == NeedOf(cfg, r))
      && Grown(cfg, p, r, r.(kv := m.kv), k) && m.pool == (if k == 0 then p else Alloc(p, k))
      && Prepared(cfg, r.(kv := m.kv))
  {
    if decode {
      DecodeKeeps(r.kv, p, cfg.bs, cfg.maxLen);
    } else {
      CeilIs(r.kv.cursor, cfg.bs, r.shared);
      PrefillKeeps(r.kv, p, |r.Seq()| - r.kv.cursor, cfg.bs, cfg.maxLen);
      CeilShift(|r.Seq()|, r.shared, cfg.bs);
    }
  }

  /** A failed attempt changes at most the cursor. */
  lemma PrepareFails(cfg: Config, p: Pool, r: Req, len: int, decode: bool)
    requires ConfigOk(cfg) && !PrepareMeta(r.kv, p, len, decode, cfg.bs, cfg.maxLen).ok
    ensures var m := PrepareMeta(r.kv, p, len, decode, cfg.bs, cfg.maxLen); m.pool == p && m.kv.table == r.kv.table
  {}

  lemma CoreAllocMaybe(cfg: Config, p: Pool, t: Tree, rs: seq<Req>, i: nat, r: Req, k: nat, lost: seq<nat>)
    requires ConfigOk(cfg) && i < |rs| && Core(cfg, p, t, rs, [], -1, lost) && Grown(cfg, p, rs[i], r, k)
    ensures Core(cfg, if k == 0 then p else Alloc(p, k), t, rs[i := r], [], -1, lost)
  {
    if k == 0 {
      assert r.kv.table == rs[i].kv.table;
      CoreGrow(cfg, p, t, rs, i, r, lost);
    } else {
      CoreAlloc(cfg, p, t, rs, i, r, k, lost);
    }
  }

  lemma SafeUpdate(cfg: Config, s: Sys, i: nat, u: Sys)
    requires ConfigOk(cfg) && Safe(cfg, s) && i < |s.running| && i < |u.running|
    requires u == s.(pool := u.pool, running := s.running[i := u.running[i]]) && u.running[i].id == s.running[i].id
    requires u.running[i].pin == s.running[i].pin
    requires Core(cfg, u.pool, u.tree, u.running, [], -1, u.lost) && |u.pool.ref| == |s.pool.ref|
    ensures Safe(cfg, u)
  {
    hide Core;
    var all, old' := u.running + u.waiting, s.running + s.waiting;
    assert forall j :: 0 <= j < |all| ==> all[j].id == old'[j].id;
  }

  lemma SafeCore(cfg: Config, s: Sys)
    requires ConfigOk(cfg) && Safe(cfg, s)
    ensures Core(cfg, s.pool, s.tree, s.running, [], -1, s.lost)
  {}

  lemma WithPrepSafe(cfg: Config, s: Sys, i: nat, decode: bool)
    requires ConfigOk(cfg) && Safe(cfg, s) && i < |s.running| && Fresh(cfg, s.running[i], decode)
    ensures Safe(cfg, WithPrep(cfg, s, i, decode))
  {
    hide PrepareMeta, Fresh, Safe, Core, Prepared, Alloc;
    SafeCore(cfg, s);
    var r := s.running[i];
    var u := WithPrep(cfg, s, i, decode);
    var len := if decode then 1 else |r.Seq()| - r.kv.cursor;
    if PrepOf(cfg, s, i, decode).ok {
      PrepareOne(cfg, s.pool, r, decode);
      var k := CeilDiv(|r.Seq()|, cfg.bs) - |r.kv.table|;
      CoreAllocMaybe(cfg, s.pool, s.tree, s.running, i, u.running[i], k, s.lost);
      AllocSize(s.pool, k);
    } else {
      PrepareFails(cfg, s.pool, r, len, decode);
      CoreGrow(cfg, s.pool, s.tree, s.running, i, u.running[i], s.lost);
    }
    SafeUpdate(cfg, s, i, u);
  }

  lemma AllocSize(p: Pool, k: nat)
    requires k <= |p.free|
    ensures |Alloc(p, k).ref| == |p.ref| && |Alloc(p, k).free| == |p.free| - k
  {}

  /**
   In the middle of the metadata loop: requests before `i` are done, the others are as admission
   or the previous step left them, and the blocks for the others are still free.
   */
  ghost predicate Preparing(cfg: Config, s: Sys, start: nat, i: nat, decode: bool)
    requires ConfigOk(cfg)
  {
    && Safe(cfg, s) && start <= i <= |s.running|
    && (forall j {:trigger s.running[j]} :: start <= j < i ==> Prepared(cfg, s.running[j]))
    && (forall j {:trigger s.running[j]} :: i <= j < |s.running| ==> Fresh(cfg, s.running[j], decode))
    && (forall j {:trigger s.running[j]} :: 0 <= j < start ==> Ready(cfg, s.running[j]) && s.running[j].phase == Running)
    && (if decode then |s.running| - i <= |s.pool.free| else s.lost == [] ==> Need(cfg, s.running[i..]) <= |s.pool.free|)
  }

  /** With the budget in place metadata can only fail on the length limit. */
  lemma NeverShort(cfg: Config, s: Sys, start: nat, i: nat, decode: bool)
    requires ConfigOk(cfg) && Preparing(cfg, s, start, i, decode) && i < |s.running|
    requires !PrepOf(cfg, s, i, decode).ok && (decode || Need(cfg, s.running[i..]) <= |s.pool.free|)
    ensures var r := s.running[i];
      if decode then 1 >= cfg.maxLen || r.kv.cursor >= cfg.maxLen else |r.Seq()| - r.kv.cursor >= cfg.maxLen
  {
    hide Safe;
    var r := s.running[i];
    assert Fresh(cfg, r, decode);
    if !decode {
      NeedSplit(cfg, s.running, i);
      CeilIs(r.kv.cursor, cfg.bs, r.shared);
      CeilShift(|r.Seq()|, r.shared, cfg.bs);
    }
  }

  /** A prefill takes what was counted for it. */
  lemma TakesNeed(cfg: Config, s: Sys, start: nat, i: nat)
    requires ConfigOk(cfg) && Preparing(cfg, s, start, i, false) && i < |s.running| && PrepOf(cfg, s, i, false).ok
    ensures var u := WithPrep(cfg, s, i, false);
      Need(cfg, u.running[i + 1..]) - |u.pool.free| == Need(cfg, s.running[i..]) - |s.pool.free|
  {
    hide Safe, PrepareMeta;
    var r := s.running[i];
    assert Fresh(cfg, r, false);
    PrepareOne(cfg, s.pool, r, false);
    var u := WithPrep(cfg, s, i, false);
    assert u.running[i + 1..] == s.running[i + 1..];
    NeedSplit(cfg, s.running, i);
    TakenFree(s.pool, NeedOf(cfg, r));
  }

  lemma TakenFree(p: Pool, k: nat)
    requires k <= |p.free|
    ensures |(if k == 0 then p else Alloc(p, k)).free| == |p.free| - k
  {}

  lemma NeedSplit(cfg: Config, rs: seq<Req>, i: nat)
    requires ConfigOk(cfg) && i < |rs| && forall j {:trigger rs[j]} :: i <= j < |rs| ==> Pending(cfg, rs[j])
    ensures Need(cfg, rs[i..]) == NeedOf(cfg, rs[i]) + Need(cfg, rs[i + 1..])
    ensures Need(cfg, rs[i + 1..]) >= 0
  {
    assert rs[i..][1..] == rs[i + 1..];
    NeedNonNegative(cfg, rs[i + 1..]);
  }

  lemma {:induction false} NeedNonNegative(cfg: Config, rs: seq<Req>)
    requires ConfigOk(cfg) && forall j {:trigger rs[j]} :: 0 <= j < |rs| ==> Pending(cfg, rs[j])
    ensures Need(cfg, rs) >= 0
  {
    if rs != [] {
      var r := rs[0];
      assert Pending(cfg, r);
      CeilShift(|r.Seq()|, r.shared, cfg.bs);
      NeedNonNegative(cfg, rs[1..]);
    }
  }

  lemma PrepareStep(cfg: Config, s: Sys, start: nat, i: nat, decode: bool)
    requires ConfigOk(cfg) && Preparing(cfg, s, start, i, decode) && i < |s.running|
    requires PrepOf(cfg, s, i, decode).ok
    ensures Preparing(cfg, WithPrep(cfg, s, i, decode), start, i + 1, decode)
    ensures Prepared(cfg, WithPrep(cfg, s, i, decode).running[i])
  {
    hide Safe, PrepareMeta;
    var r := s.running[i];
    assert Fresh(cfg, r, decode);
    PrepareOne(cfg, s.pool, r, decode);
    WithPrepSafe(cfg, s, i, decode);
    var u := WithPrep(cfg, s, i, decode);
    assert u.running[i + 1..] == s.running[i + 1..];
    if !decode { NeedSplit(cfg, s.running, i); }
  }

  /** The metadata loop: safe however it ends, and complete when it succeeds. */
  lemma {:induction false} PrepareAll(cfg: Config, s: Sys, start: nat, i: nat, upto: nat, decode: bool)
    requires ConfigOk(cfg) && Preparing(cfg, s, start, i, decode) && i <= upto <= |s.running|
    ensures var (ok, u) := PrepareFrom(cfg, s, i, upto, decode);
      && Safe(cfg, u) && |u.running| == |s.running| && u == s.(pool := u.pool, running := u.running)
      && (ok ==> Preparing(cfg, u, start, upto, decode))
    decreases upto - i
  {
    hide PrepareMeta, Safe, Fresh, Prepared;
    if i < upto {
      assert Fresh(cfg, s.running[i], decode);
      if PrepOf(cfg, s, i, decode).ok {
        PrepareStep(cfg, s, start, i, decode);
        PrepareAll(cfg, WithPrep(cfg, s, i, decode), start, i + 1, upto, decode);
      } else {
        WithPrepSafe(cfg, s, i, decode);
      }
    }
  }

  // ---------------------------------------------------------------- cells

  function CellAt(mem: seq<seq<Cell>>, table: seq<nat>, p: nat, bs: nat): Cell
    requires bs > 0
  {
    var j, o := Blk(p, bs), Off(p, bs);
    if j < |table| && table[j] < |mem| && o < |mem[table[j]]| then mem[table[j]][o] else 0
  }

  function SetCell(mem: seq<seq<Cell>>, table: seq<nat>, p: nat, bs: nat, c: Cell): (r: seq<seq<Cell>>)
    requires bs > 0
    ensures |r| == |mem| && forall b :: 0 <= b < |mem| ==> |r[b]| == |mem[b]|
  {
    var j, o := Blk(p, bs), Off(p, bs);
    if j < |table| && table[j] < |mem| && o < |mem[table[j]]| then mem[table[j] := mem[table[j]][o := c]] else mem
  }

  /** The cells of positions `0` to `n - 1`, read through the block table. */
  function Gather(mem: seq<seq<Cell>>, table: seq<nat>, n: nat, bs: nat): seq<Cell>
    requires bs > 0
  {
    seq(n, p requires 0 <= p => CellAt(mem, table, p, bs))
  }

  /** Write tokens `toks` at positions `w`, `w + 1`, ...; each cell depends on all cells before it. */
  function WriteToks(cfg: Config, mem: seq<seq<Cell>>, table: seq<nat>, w: nat, toks: seq<Token>): (r: seq<seq<Cell>>)
    requires ConfigOk(cfg)
    ensures |r| == |mem| && forall b :: 0 <= b < |mem| ==> |r[b]| == |mem[b]|
    decreases toks
  {
    if toks == [] then mem
    else WriteToks(cfg, SetCell(mem, table, w, cfg.bs, cfg.kv(Gather(mem, table, w, cfg.bs), toks[0])), table, w + 1, toks[1..])
  }

  function WriteBatch(cfg: Config, mem: seq<seq<Cell>>, rs: seq<Req>, decode: bool): (r: seq<seq<Cell>>)
    requires ConfigOk(cfg)
    ensures |r| == |mem| && forall b :: 0 <= b < |mem| ==> |r[b]| == |mem[b]|
    decreases |rs|
  {
    if rs == [] then mem
    else
      var r := rs[0];
      WriteBatch(cfg, WriteToks(cfg, mem, r.kv.table, From(cfg, r, decode), NewToks(cfg, r, decode)), rs[1..], decode)
  }

  /** A pass that dies part-way: arbitrary data in the slots it was about to fill. */
  function JunkToks(mem: seq<seq<Cell>>, table: seq<nat>, w: nat, n: nat, bs: nat, junk: nat -> Cell): (r: seq<seq<Cell>>)
    requires bs > 0
    ensures |r| == |mem| && forall b :: 0 <= b < |mem| ==> |r[b]| == |mem[b]|
    decreases n - w
  {
    if w >= n then mem else JunkToks(SetCell(mem, table, w, bs, junk(w)), table, w + 1, n, bs, junk)
  }

  function JunkBatch(cfg: Config, mem: seq<seq<Cell>>, rs: seq<Req>, decode: bool, junk: (nat, nat) -> Cell): (r: seq<seq<Cell>>)
    requires ConfigOk(cfg)
    ensures |r| == |mem| && forall b :: 0 <= b < |mem| ==> |r[b]| == |mem[b]|
    decreases |rs|
  {
    if rs == [] then mem
    else
      var r := rs[0];
      JunkBatch(cfg, JunkToks(mem, r.kv.table, From(cfg, r, decode), r.kv.cursor, cfg.bs, (p: nat) => junk(r.id, p)), rs[1..], decode, junk)
  }

  // ---------------------------------------------------------------- sampling

  /** Append the chosen token; the end token or the length limit finishes the request. */
  function Sampled(cfg: Config, r: Req, t: Token): Req {
    r.(gen := r.gen + [t],
       phase := if t == r.eos || |r.gen| + 1 >= r.maxTokens then Finished else Running)
  }

  function SampleReq(cfg: Config, mem: seq<seq<Cell>>, r: Req): Req
    requires ConfigOk(cfg)
  {
    Sampled(cfg, r, cfg.next(Gather(mem, r.kv.table, r.kv.cursor, cfg.bs)))
  }

  function SampleFrom(cfg: Config, s: Sys, i: nat): (u: Sys)
    requires ConfigOk(cfg)
    ensures |u.running| == |s.running| && u == s.(running := u.running)
    decreases |s.running| - i
  {
    if i >= |s.running| then s
    else SampleFrom(cfg, s.(running := s.running[i := SampleReq(cfg, s.mem, s.running[i])]), i + 1)
  }

  lemma SampledReady(cfg: Config, r: Req, t: Token)
    requires ConfigOk(cfg) && Prepared(cfg, r)
    ensures Ready(cfg, Sampled(cfg, r, t)) && r.Seq() <= Sampled(cfg, r, t).Seq()
  {
    var u := Sampled(cfg, r, t);
    assert u.Seq() == r.Seq() + [t];
  }

  lemma SampleOne(cfg: Config, s: Sys, i: nat)
    requires ConfigOk(cfg) && Safe(cfg, s) && i < |s.running| && Prepared(cfg, s.running[i])
    ensures Safe(cfg, s.(running := s.running[i := SampleReq(cfg, s.mem, s.running[i])]))
  {
    hide Safe, Core, Prepared, Ready, Gather;
    SafeCore(cfg, s);
    var r := SampleReq(cfg, s.mem, s.running[i]);
    SampledReady(cfg, s.running[i], cfg.next(Gather(s.mem, s.running[i].kv.table, s.running[i].kv.cursor, cfg.bs)));
    CoreGrow(cfg, s.pool, s.tree, s.running, i, r, s.lost);
    SafeUpdate(cfg, s, i, s.(running := s.running[i := r]));
  }

  /** Every request before `i` has sampled; the others of the batch are prepared. */
  ghost predicate Sampling(cfg: Config, s: Sys, start: nat, i: nat)
    requires ConfigOk(cfg)
  {
    && Safe(cfg, s) && start <= i <= |s.running|
    && (forall j {:trigger s.running[j]} :: 0 <= j < i ==> Ready(cfg, s.running[j]))
    && (forall j {:trigger s.running[j]} :: i <= j < |s.running| ==> Prepared(cfg, s.running[j]))
  }

  lemma {:induction false} SampleAll(cfg: Config, s: Sys, start: nat, i: nat)
    requires ConfigOk(cfg) && Sampling(cfg, s, start, i)
    ensures Sampling(cfg, SampleFrom(cfg, s, i), start, |s.running|)
    decreases |s.running| - i
  {
    hide Safe, Prepared, Ready, Gather;
    if i < |s.running| {
      var r := s.running[i];
      assert Prepared(cfg, r);
      SampleOne(cfg, s, i);
      SampledReady(cfg, r, cfg.next(Gather(s.mem, r.kv.table, r.kv.cursor, cfg.bs)));
      SampleAll(cfg, s.(running := s.running[i := SampleReq(cfg, s.mem, r)]), start, i + 1);
    }
  }

  // ---------------------------------------------------------------- _fail_all_inflight

  lemma IdleKeeps(cfg: Config, s: Sys)
    requires ConfigOk(cfg) && Safe(cfg, s)
    ensures Safe(cfg, s.(pc := Idle))
    ensures s.running == [] ==> Inv(cfg, s.(pc := Idle))
  {
    hide Core;
  }

  lemma ReleaseSafe(cfg: Config, s: Sys, i: nat)
    requires ConfigOk(cfg) && Safe(cfg, s) && i < |s.running|
    ensures s.running[i].pin.Some? ==> s.running[i].pin.value in s.tree.nodes
    ensures Safe(cfg, ReleaseRunning(s, i))
  {
    hide Core;
    DropSafe(cfg, s, i);
    DropFrame(s, i);
  }

  /** Drop every running request, then every waiting one; nothing stays allocated but the tree's blocks. */
  function FailAll(cfg: Config, s: Sys): (u: Sys)
    requires ConfigOk(cfg) && Safe(cfg, s)
    ensures Inv(cfg, u) && u.running == [] && u.waiting == [] && u.pc.Idle?
    decreases |s.running|, |s.waiting|
  {
    hide Safe, Inv;
    if s.running != [] then
      ReleaseSafe(cfg, s, 0);
      FailAll(cfg, ReleaseRunning(s, 0))
    else if s.waiting != [] then
      ReleaseWaitingKeeps(cfg, s, 0);
      FailAll(cfg, ReleaseWaiting(s, 0))
    else
      IdleKeeps(cfg, s);
      s.(pc := Idle)
  }

  /** The next running request to be dropped. */
  lemma FailRunning(cfg: Config, s: Sys)
    requires ConfigOk(cfg) && Safe(cfg, s) && s.running != []
    ensures s.running[0].pin.Some? ==> s.running[0].pin.value in s.tree.nodes
    ensures var v := ReleaseRunning(s, 0);
      && Safe(cfg, v) && FailAll(cfg, s) == FailAll(cfg, v) && v.fault == s.fault && v.lost == s.lost
      && v.running == s.running[1..] && v.waiting == s.waiting
      && v.done == s.done + [Ended(Cleared(s.running[0], Finished), false)]
  {
    hide Safe, Inv, UnpinOf, Free;
    ReleaseSafe(cfg, s, 0);
  }

  /** The next waiting request to be dropped. */
  lemma FailWaiting(cfg: Config, s: Sys)
    requires ConfigOk(cfg) && Safe(cfg, s) && s.running == [] && s.waiting != []
    ensures var v := ReleaseWaiting(s, 0);
      && Safe(cfg, v) && FailAll(cfg, s) == FailAll(cfg, v) && v.fault == s.fault && v.lost == s.lost
      && v.running == [] && v.waiting == s.waiting[1..]
      && v.done == s.done + [Ended(s.waiting[0].(phase := Finished), false)]
  {
    hide Safe, Inv;
    ReleaseWaitingKeeps(cfg, s, 0);
  }

  lemma FailEmpty(cfg: Config, s: Sys)
    requires ConfigOk(cfg) && Safe(cfg, s) && s.running == [] && s.waiting == []
    ensures FailAll(cfg, s) == s.(pc := Idle)
  {
    hide Safe, Inv;
  }

  lemma {:induction false} FailAllFault(cfg: Config, s: Sys)
    requires ConfigOk(cfg) && Safe(cfg, s)
    ensures FailAll(cfg, s).fault == s.fault
    decreases |s.running|, |s.waiting|
  {
    hide Safe, Inv, ReleaseRunning, ReleaseWaiting, FailAll;
    if s.running != [] {
      FailRunning(cfg, s);
      FailAllFault(cfg, ReleaseRunning(s, 0));
    } else if s.waiting != [] {
      FailWaiting(cfg, s);
      FailAllFault(cfg, ReleaseWaiting(s, 0));
    } else {
      FailEmpty(cfg, s);
    }
  }

  // ---------------------------------------------------------------- finished requests

  /** The whole blocks a finished request records: of all its tokens as written, or of those in the cache. */
  function RecordKey(cfg: Config, r: Req): seq<Chunk>
    requires ConfigOk(cfg)
  {
    Chunks(if cfg.cutAtCursor && r.kv.cursor <= |r.Seq()| then r.Seq()[..r.kv.cursor] else r.Seq(), cfg.bs)
  }

  lemma RecordKeyFits(cfg: Config, r: Req)
    requires ConfigOk(cfg) && Ready(cfg, r)
    ensures Recordable(cfg, r, RecordKey(cfg, r))
  {
    hide CeilDiv, ChunkAt;
    RecordCounts(r.kv.cursor, cfg.bs, r.shared);
    ChunksPrefix(r.Seq(), r.kv.cursor, cfg.bs);
  }

  lemma RecordCounts(c: nat, bs: nat, shared: nat)
    requires bs >= 2 && shared * bs <= c
    ensures shared <= c / bs <= (c + 1) / bs <= CeilDiv(c, bs)
  {
    BlkFrom(c, shared, bs);
    DivMono(c, c + 1, bs);
    DivBelowCeil(c, bs);
  }

  /** One token more than `c` completes no more blocks than `c` tokens need. */
  lemma DivBelowCeil(c: nat, bs: nat)
    requires bs >= 2
    ensures (c + 1) / bs <= CeilDiv(c, bs)
  {
    DivMono(c + 1, c + bs - 1, bs);
  }

  /** As written, recording request `i` would leave the tree with a part-block leaf. */
  predicate Faults(cfg: Config, s: Sys, i: nat)
    requires ConfigOk(cfg) && i < |s.running| && Shape(s.tree)
  {
    cfg.useRadix && !cfg.floored && DivergesMidBlock(s.tree, RecordKey(cfg, s.running[i]))
  }

  /** Record and release finished request `i`. */
  function FinishAt(cfg: Config, s: Sys, i: nat): Sys
    requires ConfigOk(cfg) && Safe(cfg, s) && i < |s.running| && Ready(cfg, s.running[i])
  {
    hide Safe, Core, Shape, Ready;
    SafeShape(cfg, s, i);
    var r := s.running[i];
    var x := RecordKey(cfg, r);
    if !cfg.useRadix then
      DropRunning(s, i).(done := s.done + [Ended(Cleared(r, Finished), true)])
    else if Faults(cfg, s, i) then
      s.(fault := true)
    else
      FinishDefined(cfg, s, i);
      DropRunning(
        s.(tree := Insert(s.tree, x, r.kv.table), pool := Ref(s.pool, r.kv.table[Known(s.tree, x)..|x|]).1), i)
      .(done := s.done + [Ended(Cleared(r, Finished), true)])
  }

  lemma SafeShape(cfg: Config, s: Sys, i: nat)
    requires ConfigOk(cfg) && Safe(cfg, s) && i < |s.running| && Ready(cfg, s.running[i])
    ensures Shape(s.tree) && (s.running[i].pin.Some? ==> s.running[i].pin.value in s.tree.nodes)
    ensures Known(s.tree, RecordKey(cfg, s.running[i])) <= |RecordKey(cfg, s.running[i])| <= |s.running[i].kv.table|
  {
    RecordKeyFits(cfg, s.running[i]);
    SafePin(cfg, s, i);
  }

  lemma FinishDefined(cfg: Config, s: Sys, i: nat)
    requires ConfigOk(cfg) && Safe(cfg, s) && i < |s.running| && Ready(cfg, s.running[i])
    ensures var r := s.running[i]; var x := RecordKey(cfg, r);
      && |x| <= |r.kv.table| && Shape(s.tree)
      && (r.pin.Some? ==> r.pin.value in Insert(s.tree, x, r.kv.table).nodes)
  {
    hide Core;
    SafeShape(cfg, s, i);
    var r := s.running[i];
    if r.pin.Some? { InsertPath(s.tree, RecordKey(cfg, r), r.kv.table, r.pin.value); }
  }

  lemma FinishSafe(cfg: Config, s: Sys, i: nat)
    requires ConfigOk(cfg) && Safe(cfg, s) && i < |s.running| && Ready(cfg, s.running[i])
    ensures Safe(cfg, FinishAt(cfg, s, i))
    ensures Shape(s.tree)
    ensures var u := FinishAt(cfg, s, i);
      if Faults(cfg, s, i) then u == s.(fault := true)
      else u.running == s.running[..i] + s.running[i + 1..] && u.waiting == s.waiting && u.pc == s.pc && u.fault == s.fault
  {
    hide Safe, Core, Insert, Ref, Ready, Free, UnpinOf;
    SafeShape(cfg, s, i);
    SafeCore(cfg, s);
    var r := s.running[i];
    var x := RecordKey(cfg, r);
    if !cfg.useRadix {
      ReleaseSafe(cfg, s, i);
      DoneKeeps(cfg, ReleaseRunning(s, i), s.done + [Ended(Cleared(r, Finished), true)]);
    } else if Faults(cfg, s, i) {
      FaultKeeps(cfg, s);
    } else {
      FinishDefined(cfg, s, i);
      RecordKeyFits(cfg, r);
      CoreInsert(cfg, s.pool, s.tree, s.running, i, x, s.lost);
      var mid := s.(tree := Insert(s.tree, x, r.kv.table), pool := Ref(s.pool, r.kv.table[Known(s.tree, x)..|x|]).1);
      DropCore(cfg, mid, i);
      FinishFrame(cfg, s, mid, i, FinishAt(cfg, s, i));
    }
  }

  lemma DoneKeeps(cfg: Config, s: Sys, done: seq<Ended>)
    requires ConfigOk(cfg) && Safe(cfg, s)
    ensures Safe(cfg, s.(done := done))
  {
    hide Core;
  }

  lemma FaultKeeps(cfg: Config, s: Sys)
    requires ConfigOk(cfg) && Safe(cfg, s)
    ensures Safe(cfg, s.(fault := true))
    ensures Phases(cfg, s) ==> Phases(cfg, s.(fault := true))
  {
    hide Core;
  }

  lemma FinishFrame(cfg: Config, s: Sys, mid: Sys, i: nat, u: Sys)
    requires ConfigOk(cfg) && Safe(cfg, s) && i < |s.running| && cfg.useRadix
    requires mid == s.(tree := mid.tree, pool := mid.pool) && |mid.pool.ref| == |s.pool.ref|
    requires u == s.(tree := u.tree, pool := u.pool, running := s.running[..i] + s.running[i + 1..], done := u.done)
    requires Core(cfg, u.pool, u.tree, u.running, [], -1, u.lost) && |u.pool.ref| == |s.pool.ref|
    ensures Safe(cfg, u)
  {
    hide Core;
    OrderWithout(s.running + s.waiting, i, s.nextId);
    assert u.running + u.waiting == (s.running + s.waiting)[..i] + (s.running + s.waiting)[i + 1..];
  }

  /** Finished requests before `i` have left; every request has its cache in step. */
  ghost predicate Finishing(cfg: Config, s: Sys, i: nat)
    requires ConfigOk(cfg)
  {
    && Safe(cfg, s) && s.pc.Idle? && i <= |s.running|
    && (forall j {:trigger s.running[j]} :: 0 <= j < |s.running| ==> Ready(cfg, s.running[j]))
    && (forall j {:trigger s.running[j]} :: 0 <= j < i ==> s.running[j].phase == Running)
  }

  lemma FinishStep(cfg: Config, s: Sys, i: nat)
    requires ConfigOk(cfg) && Finishing(cfg, s, i) && i < |s.running|
    ensures s.running[i].phase != Finished ==> Finishing(cfg, s, i + 1)
    ensures Shape(s.tree) && Ready(cfg, s.running[i])
    ensures s.running[i].phase == Finished && !Faults(cfg, s, i) ==>
      Finishing(cfg, FinishAt(cfg, s, i), i) && |FinishAt(cfg, s, i).running| < |s.running| && FinishAt(cfg, s, i).fault == s.fault
    ensures s.running[i].phase == Finished && Faults(cfg, s, i) ==> FinishAt(cfg, s, i).fault
  {
    hide Safe, Ready, FinishAt, Faults;
    var r := s.running[i];
    assert Ready(cfg, r);
    ReadyPhase(cfg, r);
    FinishSafe(cfg, s, i);
    var u := FinishAt(cfg, s, i);
  }

  lemma ReadyPhase(cfg: Config, r: Req)
    requires ConfigOk(cfg) && Ready(cfg, r)
    ensures r.phase != Waiting
  {}

  lemma FinishEnd(cfg: Config, s: Sys)
    requires ConfigOk(cfg) && Finishing(cfg, s, |s.running|)
    ensures Inv(cfg, s)
  {
    hide Safe, Ready;
  }

  /** The finishing loop; it stops at a fault. */
  function FinishFrom(cfg: Config, s: Sys, i: nat): (u: Sys)
    requires ConfigOk(cfg) && Finishing(cfg, s, i) && !s.fault
    ensures u.fault || (Inv(cfg, u) && u.pc.Idle?)
    decreases |s.running| - i
  {
    hide Finishing, Inv, FinishAt, Faults, Ready;
    FinishBounds(cfg, s, i);
    if i >= |s.running| then FinishEnd(cfg, s); s
    else
      FinishStep(cfg, s, i);
      if s.running[i].phase != Finished then FinishFrom(cfg, s, i + 1)
      else
        FinishingSafe(cfg, s, i);
        if Faults(cfg, s, i) then s.(fault := true)
        else FinishFrom(cfg, FinishAt(cfg, s, i), i)
  }

  lemma FinishBounds(cfg: Config, s: Sys, i: nat)
    requires ConfigOk(cfg) && Finishing(cfg, s, i)
    ensures i <= |s.running| && s.pc.Idle?
  {}

  lemma FinishingSafe(cfg: Config, s: Sys, i: nat)
    requires ConfigOk(cfg) && Finishing(cfg, s, i)
    ensures Safe(cfg, s) && Shape(s.tree)
  {}

  // ---------------------------------------------------------------- the whole pass

  lemma BatchFresh(cfg: Config, s: Sys)
    requires ConfigOk(cfg) && Inv(cfg, s) && Funded(cfg, s) && !s.pc.Idle?
    ensures 0 <= BatchStart(s) <= |s.running|
    ensures Preparing(cfg, s, BatchStart(s), BatchStart(s), s.pc.Decoding?)
  {
    hide Safe, Ready, Pending;
  }

  /** The state once every request has its new cells and its token. */
  function Forwarded(cfg: Config, s: Sys): Sys
    requires ConfigOk(cfg) && 0 <= BatchStart(s) <= |s.running|
  {
    var i := BatchStart(s);
    var decode := s.pc.Decoding?;
    var u := PrepareFrom(cfg, s, i, |s.running|, decode).1;
    if i > |u.running| then u
    else SampleFrom(cfg, u.(mem := WriteBatch(cfg, u.mem, u.running[i..], decode)), i).(pc := Idle)
  }

  lemma PreparedSampling(cfg: Config, s: Sys, start: nat, decode: bool, mem: seq<seq<Cell>>)
    requires ConfigOk(cfg) && Preparing(cfg, s, start, |s.running|, decode)
    requires |mem| == |s.mem| && forall b :: 0 <= b < |mem| ==> |mem[b]| == |s.mem[b]|
    ensures Sampling(cfg, s.(mem := mem), start, start)
  {
    hide Core, Prepared, Ready;
  }

  lemma SampledFinishing(cfg: Config, s: Sys, start: nat)
    requires ConfigOk(cfg) && Sampling(cfg, s, start, |s.running|)
    ensures Finishing(cfg, s.(pc := Idle), 0)
  {
    hide Core, Ready;
  }

  lemma ForwardedFinishing(cfg: Config, s: Sys)
    requires ConfigOk(cfg) && Inv(cfg, s) && Funded(cfg, s) && !s.pc.Idle?
    requires 0 <= BatchStart(s) <= |s.running| && PrepareFrom(cfg, s, BatchStart(s), |s.running|, s.pc.Decoding?).0
    ensures Finishing(cfg, Forwarded(cfg, s), 0) && Forwarded(cfg, s).fault == s.fault
  {
    hide Inv, Funded, Preparing, Sampling, Finishing, WriteBatch, SampleFrom, PrepareFrom;
    var i := BatchStart(s);
    var decode := s.pc.Decoding?;
    BatchFresh(cfg, s);
    PrepareAll(cfg, s, i, i, |s.running|, decode);
    var u := PrepareFrom(cfg, s, i, |s.running|, decode).1;
    var mem := WriteBatch(cfg, u.mem, u.running[i..], decode);
    PreparedSampling(cfg, u, i, decode, mem);
    SampleAll(cfg, u.(mem := mem), i, i);
    SampledFinishing(cfg, SampleFrom(cfg, u.(mem := mem), i), i);
  }

  lemma PreparingSafe(cfg: Config, s: Sys, start: nat, i: nat, decode: bool, mem: seq<seq<Cell>>)
    requires ConfigOk(cfg) && Safe(cfg, s)
    requires |mem| == |s.mem| && forall b :: 0 <= b < |mem| ==> |mem[b]| == |s.mem[b]|
    ensures Safe(cfg, s.(mem := mem))
  {
    hide Core;
  }

  /** A pass that succeeds; an empty batch or a length limit makes it fail. */
  function Forward(cfg: Config, s: Sys): (u: Sys)
    requires ConfigOk(cfg) && Inv(cfg, s) && Funded(cfg, s) && !s.pc.Idle? && !s.fault
    ensures Inv(cfg, u) && (u.fault || u.pc.Idle?)
  {
    hide Inv, Funded, Finishing, Safe, PrepareFrom, Forwarded;
    BatchFresh(cfg, s);
    PrepareAll(cfg, s, BatchStart(s), BatchStart(s), |s.running|, s.pc.Decoding?);
    var (ok, prepared) := PrepareFrom(cfg, s, BatchStart(s), |s.running|, s.pc.Decoding?);
    if !ok || s.running == [] then FailAll(cfg, prepared)
    else
      ForwardedFinishing(cfg, s);
      var u := FinishFrom(cfg, Forwarded(cfg, s), 0);
      FaultInv(cfg, s);
      if u.fault then s.(fault := true) else u
  }

  lemma FaultInv(cfg: Config, s: Sys)
    requires ConfigOk(cfg) && Inv(cfg, s)
    ensures Inv(cfg, s.(fault := true))
  {
    hide Core;
  }

  /** A pass that dies after `k` requests' metadata, with arbitrary data in the slots concerned. */
  function Crash(cfg: Config, s: Sys, k: nat, junk: (nat, nat) -> Cell): (u: Sys)
    requires ConfigOk(cfg) && Inv(cfg, s) && Funded(cfg, s) && !s.pc.Idle?
    ensures Inv(cfg, u) && u.pc.Idle?
  {
    hide Inv, Funded, Safe, PrepareFrom, JunkBatch;
    BatchFresh(cfg, s);
    var i := BatchStart(s);
    var upto := if i + k <= |s.running| then i + k else |s.running|;
    PrepareAll(cfg, s, i, i, upto, s.pc.Decoding?);
    var u := PrepareFrom(cfg, s, i, upto, s.pc.Decoding?).1;
    var mem := JunkBatch(cfg, u.mem, u.running[i..], s.pc.Decoding?, junk);
    PreparingSafe(cfg, u, i, upto, s.pc.Decoding?, mem);
    FailAll(cfg, u.(mem := mem))
  }
}
