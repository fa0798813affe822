/**
 Where the code as written leaves its own contract: the exact condition of each departure, with a
 concrete input that shows it.
 */
module ServingDepartures {
  import opened Basics
  import opened Tokens
  import opened PoolSpec
  import opened CacheSpec
  import opened RadixSpec
  import opened RadixUpdate
  import opened RadixInsertEvict
  import opened ServingState
  import opened ServingCore
  import opened Serving
  import opened ServingAdmit
  import opened ServingForward
  import opened ServingContent
  import opened ServingSound

  // ---------------------------------------------------------------- recording one token too many

  /** The slot after the cursor is the request's own: whatever it holds, nothing anybody relies on changes. */
  lemma SlotFree(cfg: Config, s: Sys, i: nat, v: Cell)
    requires ConfigOk(cfg) && Safe(cfg, s) && Content(cfg, s) && i < |s.running| && Ready(cfg, s.running[i])
    requires Blk(s.running[i].kv.cursor, cfg.bs) < |s.running[i].kv.table|
    ensures var r := s.running[i]; var mem := SetCell(s.mem, r.kv.table, r.kv.cursor, cfg.bs, v);
      && Safe(cfg, s.(mem := mem)) && Content(cfg, s.(mem := mem))
      && CellAt(mem, r.kv.table, r.kv.cursor, cfg.bs) == v
  {
    var r := s.running[i];
    var (c, j) := (r.kv.cursor, Blk(r.kv.cursor, cfg.bs));
    var mem := SetCell(s.mem, r.kv.table, c, cfg.bs, v);
    BlkFrom(c, r.shared, cfg.bs);
    SafeCore(cfg, s);
    SafeSized(cfg, s);
    TableInPool(cfg, s.pool, s.tree, s.running, i, j, s.lost);
    SoleOwner(cfg, s.pool, s.tree, s.running, i, j, s.lost);
    PreparingSafe(cfg, s, 0, 0, false, mem);
    SetCellHere(s.mem, r.kv.table, c, cfg.bs, v);
    SlotKept(cfg, s.mem, r, v);
    hide Safe, Core, Ready, SetCell, CellAt, Blk, Held, ContentTree;
    ContentTreeFrame(cfg, s.mem, mem, s.tree);
    forall m {:trigger s.running[m]} | 0 <= m < |s.running| ensures ContentAt(cfg, mem, s.running[m], s.running[m].kv.cursor) {
      if m != i {
        assert ContentAt(cfg, s.mem, s.running[m], s.running[m].kv.cursor);
        ContentFrame(cfg, s.mem, mem, s.running[m], s.running[m].kv.cursor);
      }
    }
  }

  lemma SlotKept(cfg: Config, mem: seq<seq<Cell>>, r: Req, v: Cell)
    requires ConfigOk(cfg) && ContentAt(cfg, mem, r, r.kv.cursor) && InMem(mem, r.kv.table, r.kv.cursor, cfg.bs)
    requires forall k :: 0 <= k < |r.kv.table| && k != Blk(r.kv.cursor, cfg.bs) ==> r.kv.table[k] != r.kv.table[Blk(r.kv.cursor, cfg.bs)]
    ensures ContentAt(cfg, SetCell(mem, r.kv.table, r.kv.cursor, cfg.bs, v), r, r.kv.cursor)
  {
    var u := SetCell(mem, r.kv.table, r.kv.cursor, cfg.bs, v);
    hide Correct, CellAt, Blk, Off, SetCell;
    forall p | 0 <= p < r.kv.cursor ensures CellAt(u, r.kv.table, p, cfg.bs) == CellAt(mem, r.kv.table, p, cfg.bs) {
      BlkMono(p, r.kv.cursor, cfg.bs);
      SetCellElsewhere(mem, r.kv.table, r.kv.cursor, cfg.bs, v, p);
    }
    assert Gather(u, r.kv.table, r.kv.cursor, cfg.bs) == Gather(mem, r.kv.table, r.kv.cursor, cfg.bs);
  }

  /** The tree after recording all tokens of request `i`, over a memory whose unwritten slot holds `v`. */
  ghost predicate RightWith(cfg: Config, s: Sys, i: nat, v: Cell)
    requires ConfigOk(cfg) && i < |s.running| && Shape(s.tree) && |WrittenKey(cfg, s.running[i])| <= |s.running[i].kv.table|
  {
    var r := s.running[i];
    ContentTree(cfg, SetCell(s.mem, r.kv.table, r.kv.cursor, cfg.bs, v), Insert(s.tree, WrittenKey(cfg, r), r.kv.table))
  }

  /**
   Recording all tokens keeps the tree's blocks right, whatever the slot of the token that was never
   computed happens to hold, exactly when that token completes no block or its block is already there.
   */
  lemma RecordAllIff(cfg: Config, s: Sys, i: nat)
    requires ConfigOk(cfg) && Safe(cfg, s) && Content(cfg, s) && i < |s.running| && Ready(cfg, s.running[i])
    ensures Shape(s.tree) && |WrittenKey(cfg, s.running[i])| <= |s.running[i].kv.table|
    ensures var r := s.running[i]; var x := WrittenKey(cfg, r);
      (forall v: Cell :: RightWith(cfg, s, i, v)) <==> (r.kv.cursor + 1) % cfg.bs != 0 || Known(s.tree, x) == |x|
  {
    hide Safe, Content, Ready, Chunks, Known, RightWith, Shape, WrittenKey;
    SafeShape(cfg, s, i);
    WrittenSlot(cfg, s.running[i]);
    if (s.running[i].kv.cursor + 1) % cfg.bs != 0 || Known(s.tree, WrittenKey(cfg, s.running[i])) == |WrittenKey(cfg, s.running[i])| {
      AllRight(cfg, s, i);
    } else {
      SomeWrong(cfg, s, i);
    }
  }

  lemma SomeWrong(cfg: Config, s: Sys, i: nat)
    requires ConfigOk(cfg) && Safe(cfg, s) && Content(cfg, s) && i < |s.running| && Ready(cfg, s.running[i])
    requires Shape(s.tree) && |WrittenKey(cfg, s.running[i])| <= |s.running[i].kv.table|
    requires (s.running[i].kv.cursor + 1) % cfg.bs == 0 && Known(s.tree, WrittenKey(cfg, s.running[i])) < |WrittenKey(cfg, s.running[i])|
    ensures exists v: Cell :: !RightWith(cfg, s, i, v)
  {
    hide Safe, Content, Ready, Known, RightWith, Shape, WrittenKey, Correct;
    var r := s.running[i];
    CursorBelow(cfg, r);
    var v := Correct(cfg, r.Seq())[r.kv.cursor] + 1;
    RecordHarmful(cfg, s, i, v);
    assert !RightWith(cfg, s, i, v);
  }

  lemma AllRight(cfg: Config, s: Sys, i: nat)
    requires ConfigOk(cfg) && Safe(cfg, s) && Content(cfg, s) && i < |s.running| && Ready(cfg, s.running[i])
    requires Shape(s.tree) && |WrittenKey(cfg, s.running[i])| <= |s.running[i].kv.table|
    requires (s.running[i].kv.cursor + 1) % cfg.bs != 0 || Known(s.tree, WrittenKey(cfg, s.running[i])) == |WrittenKey(cfg, s.running[i])|
    ensures forall v: Cell :: RightWith(cfg, s, i, v)
  {
    hide Safe, Content, Ready, Known, RightWith, Shape, WrittenKey;
    forall v: Cell ensures RightWith(cfg, s, i, v) { RecordHarmless(cfg, s, i, v); }
  }

  lemma CursorBelow(cfg: Config, r: Req)
    requires ConfigOk(cfg) && Ready(cfg, r)
    ensures r.kv.cursor < |r.Seq()|
  {}

  lemma WrittenSlot(cfg: Config, r: Req)
    requires ConfigOk(cfg) && Ready(cfg, r)
    ensures |WrittenKey(cfg, r)| <= |r.kv.table|
    ensures (r.kv.cursor + 1) % cfg.bs == 0 ==> Blk(r.kv.cursor, cfg.bs) < |r.kv.table|
  {
    WrittenKeyCounts(cfg, r);
  }

  lemma NoSlot(mem: seq<seq<Cell>>, table: seq<nat>, p: nat, bs: nat, v: Cell)
    requires bs > 0 && Blk(p, bs) >= |table|
    ensures SetCell(mem, table, p, bs, v) == mem
  {}

  lemma RecordHarmless(cfg: Config, s: Sys, i: nat, v: Cell)
    requires ConfigOk(cfg) && Safe(cfg, s) && Content(cfg, s) && i < |s.running| && Ready(cfg, s.running[i])
    requires Shape(s.tree) && |WrittenKey(cfg, s.running[i])| <= |s.running[i].kv.table|
    requires (s.running[i].kv.cursor + 1) % cfg.bs != 0 || Known(s.tree, WrittenKey(cfg, s.running[i])) == |WrittenKey(cfg, s.running[i])|
    ensures RightWith(cfg, s, i, v)
  {
    var r := s.running[i];
    WrittenKeyCounts(cfg, r);
    hide Safe, Insert, Chunks, Shape, Entry, Ready, Known, ContentTree, Content, SetCell, CellAt, Blk;
    var u := s.(mem := SetCell(s.mem, r.kv.table, r.kv.cursor, cfg.bs, v));
    if Blk(r.kv.cursor, cfg.bs) < |r.kv.table| {
      SlotFree(cfg, s, i, v);
    } else {
      NoSlot(s.mem, r.kv.table, r.kv.cursor, cfg.bs, v);
      assert u == s;
    }
    if (r.kv.cursor + 1) % cfg.bs != 0 {
      RecordCut(cfg, u, i, WrittenKey(cfg, r));
    } else {
      RecordNothing(cfg, u, WrittenKey(cfg, r), r.kv.table);
    }
  }

  /** The token that was never computed completes a block that is not recorded. */
  predicate Opens(cfg: Config, t: Tree, r: Req)
    requires ConfigOk(cfg) && Shape(t)
  {
    (r.kv.cursor + 1) % cfg.bs == 0 && Known(t, WrittenKey(cfg, r)) < |WrittenKey(cfg, r)|
  }

  lemma OpensSlot(cfg: Config, t: Tree, r: Req)
    requires ConfigOk(cfg) && Ready(cfg, r) && Shape(t) && Opens(cfg, t, r)
    ensures cfg.bs > 0 && |WrittenKey(cfg, r)| <= |r.kv.table| && Blk(r.kv.cursor, cfg.bs) < |r.kv.table|
  {
    hide Ready, WrittenKey, Known, Shape, Blk;
    WrittenSlot(cfg, r);
  }

  lemma RecordHarmful(cfg: Config, s: Sys, i: nat, v: Cell)
    requires ConfigOk(cfg) && Safe(cfg, s) && Content(cfg, s) && i < |s.running| && Ready(cfg, s.running[i])
    requires Shape(s.tree) && |WrittenKey(cfg, s.running[i])| <= |s.running[i].kv.table| && Opens(cfg, s.tree, s.running[i])
    requires s.running[i].kv.cursor < |s.running[i].Seq()| && v != Correct(cfg, s.running[i].Seq())[s.running[i].kv.cursor]
    ensures !RightWith(cfg, s, i, v)
  {
    hide *;
    var r := s.running[i];
    OpensSlot(cfg, s.tree, r);
    SlotFree(cfg, s, i, v);
    RightIs(cfg, s, i, v);
    WrongLast(cfg, s.(mem := SetCell(s.mem, r.kv.table, r.kv.cursor, cfg.bs, v)), i);
  }

  lemma WrongLast(cfg: Config, u: Sys, i: nat)
    requires ConfigOk(cfg) && Safe(cfg, u) && Content(cfg, u) && i < |u.running| && Ready(cfg, u.running[i])
    requires Shape(u.tree) && |WrittenKey(cfg, u.running[i])| <= |u.running[i].kv.table| && Opens(cfg, u.tree, u.running[i])
    requires var r := u.running[i];
      r.kv.cursor < |r.Seq()| && CellAt(u.mem, r.kv.table, r.kv.cursor, cfg.bs) != Correct(cfg, r.Seq())[r.kv.cursor]
    ensures !ContentTree(cfg, u.mem, Insert(u.tree, WrittenKey(cfg, u.running[i]), u.running[i].kv.table))
  {
    hide Safe, Content, Ready, Shape, WrittenKey, Known, CellAt, Correct, ContentTree, Insert;
    RecordLast(cfg, u, i);
  }

  lemma RightIs(cfg: Config, s: Sys, i: nat, v: Cell)
    requires ConfigOk(cfg) && i < |s.running| && Shape(s.tree) && |WrittenKey(cfg, s.running[i])| <= |s.running[i].kv.table|
    ensures var r := s.running[i];
      RightWith(cfg, s, i, v)
      <==> ContentTree(cfg, SetCell(s.mem, r.kv.table, r.kv.cursor, cfg.bs, v), Insert(s.tree, WrittenKey(cfg, r), r.kv.table))
  {
    hide ContentTree, SetCell, Insert, WrittenKey, Shape;
  }

  /** A block whose cells but the last are right is right iff the last cell is. */
  lemma LastCellDecides(cfg: Config, mem: seq<seq<Cell>>, table: seq<nat>, s: seq<Token>, n: nat, b: nat)
    requires ConfigOk(cfg) && |s| == n + cfg.bs && b < |mem| && |mem[b]| == cfg.bs
    requires forall o :: 0 <= o < cfg.bs - 1 ==> mem[b][o] == Correct(cfg, s)[n + o]
    ensures mem[b] == Correct(cfg, s)[n..] <==> mem[b][cfg.bs - 1] == Correct(cfg, s)[n + cfg.bs - 1]
  {
    hide Correct;
    var want := Correct(cfg, s)[n..];
    if mem[b][cfg.bs - 1] == want[cfg.bs - 1] {
      forall o | 0 <= o < cfg.bs ensures mem[b][o] == want[o] {}
      assert mem[b] == want;
    }
  }

  lemma WholeFlat(s: seq<Token>, k: nat, bs: nat)
    requires bs > 0 && |s| == k * bs
    ensures |Chunks(s, bs)| == k && Flat(Chunks(s, bs)) == s
  {
    DivIs(k * bs, bs, k);
    FlatChunks(s, k, bs);
    assert Chunks(s, bs)[..k] == Chunks(s, bs);
  }

  lemma CellOfBlock(mem: seq<seq<Cell>>, table: seq<nat>, j: nat, n: nat, o: nat, bs: nat)
    requires bs > 0 && n == j * bs && o < bs && j < |table| && table[j] < |mem| && |mem[table[j]]| == bs
    ensures CellAt(mem, table, n + o, bs) == mem[table[j]][o]
  {
    BlkOffOf(j, o, bs);
    hide Blk, Off;
  }

  /** The block completed by the extra token is right iff its last slot is. */
  lemma LastBlock(cfg: Config, mem: seq<seq<Cell>>, table: seq<nat>, s: seq<Token>, j: nat, n: nat)
    requires ConfigOk(cfg) && j < |table| && n == j * cfg.bs && |s| == n + cfg.bs
    requires table[j] < |mem| && |mem[table[j]]| == cfg.bs
    requires Gather(mem, table, |s| - 1, cfg.bs) == Correct(cfg, s[..|s| - 1])
    ensures mem[table[j]] == Correct(cfg, s)[n..]
      <==> CellAt(mem, table, |s| - 1, cfg.bs) == Correct(cfg, s)[|s| - 1]
  {
    hide Correct, CellAt;
    var b := table[j];
    CorrectPrefix(cfg, s, |s| - 1);
    forall o | 0 <= o < cfg.bs - 1 ensures mem[b][o] == Correct(cfg, s)[n + o] {
      CellOfBlock(mem, table, j, n, o, cfg.bs);
      assert Gather(mem, table, |s| - 1, cfg.bs)[n + o] == CellAt(mem, table, n + o, cfg.bs);
      assert Correct(cfg, s)[..|s| - 1][n + o] == Correct(cfg, s)[n + o];
    }
    LastCellDecides(cfg, mem, table, s, n, b);
    CellOfBlock(mem, table, j, n, cfg.bs - 1, cfg.bs);
  }

  lemma LastBlockMeans(cfg: Config, mem: seq<seq<Cell>>, s: seq<Token>, k: nat, b: nat)
    requires ConfigOk(cfg) && 0 < k && |s| == k * cfg.bs && b < |mem|
    ensures (k - 1) * cfg.bs + cfg.bs == |s|
    ensures BlockHolds(cfg, mem, Chunks(s, cfg.bs), b) <==> mem[b] == Correct(cfg, s)[(k - 1) * cfg.bs..]
  {
    WholeFlat(s, k, cfg.bs);
    hide Correct, Chunks, Flat;
    assert k * cfg.bs == (k - 1) * cfg.bs + cfg.bs;
  }

  lemma LastBlockIff(cfg: Config, s: Sys, i: nat)
    requires ConfigOk(cfg) && Safe(cfg, s) && Content(cfg, s) && i < |s.running| && Ready(cfg, s.running[i])
    requires (s.running[i].kv.cursor + 1) % cfg.bs == 0
    ensures var r := s.running[i]; var x := WrittenKey(cfg, r); var c := r.kv.cursor;
      0 < |x| <= |r.kv.table|
      && (BlockHolds(cfg, s.mem, x, r.kv.table[|x| - 1]) <==> CellAt(s.mem, r.kv.table, c, cfg.bs) == Correct(cfg, r.Seq())[c])
  {
    hide Safe, Content, Ready, BlockHolds, CellAt, Correct, Blk, Off, Chunks, Gather;
    var r := s.running[i];
    var k := |WrittenKey(cfg, r)|;
    WrittenKeyCounts(cfg, r);
    InStep(cfg, s, i, k - 1);
    LastBlockMeans(cfg, s.mem, r.Seq(), k, r.kv.table[k - 1]);
    LastBlock(cfg, s.mem, r.kv.table, r.Seq(), k - 1, (k - 1) * cfg.bs);
  }

  lemma InStep(cfg: Config, s: Sys, i: nat, j: nat)
    requires ConfigOk(cfg) && Safe(cfg, s) && Content(cfg, s) && i < |s.running| && Ready(cfg, s.running[i])
    requires j < |s.running[i].kv.table|
    ensures var r := s.running[i];
      && r.kv.table[j] < |s.mem| && |s.mem[r.kv.table[j]]| == cfg.bs
      && |r.Seq()| == r.kv.cursor + 1
      && Gather(s.mem, r.kv.table, |r.Seq()| - 1, cfg.bs) == Correct(cfg, r.Seq()[..|r.Seq()| - 1])
  {
    hide Core, Correct, Gather, KvOk;
    SafeCore(cfg, s);
    SafeSized(cfg, s);
    TableInPool(cfg, s.pool, s.tree, s.running, i, j, s.lost);
    assert ContentAt(cfg, s.mem, s.running[i], s.running[i].kv.cursor);
  }

  lemma OldBlock(cfg: Config, s: Sys, y: seq<Chunk>, b: nat)
    requires ConfigOk(cfg) && Content(cfg, s) && Entry(s.tree, y, b)
    ensures BlockHolds(cfg, s.mem, y, b)
  {}

  lemma RecordLast(cfg: Config, s: Sys, i: nat)
    requires ConfigOk(cfg) && Safe(cfg, s) && Content(cfg, s) && i < |s.running| && Ready(cfg, s.running[i]) && Shape(s.tree)
    requires (s.running[i].kv.cursor + 1) % cfg.bs == 0 && |WrittenKey(cfg, s.running[i])| <= |s.running[i].kv.table|
    requires Known(s.tree, WrittenKey(cfg, s.running[i])) < |WrittenKey(cfg, s.running[i])|
    ensures var r := s.running[i]; var x := WrittenKey(cfg, r); var c := r.kv.cursor;
      ContentTree(cfg, s.mem, Insert(s.tree, x, r.kv.table)) <==> CellAt(s.mem, r.kv.table, c, cfg.bs) == Correct(cfg, r.Seq())[c]
  {
    var r := s.running[i];
    var x := WrittenKey(cfg, r);
    var bt := r.kv.table;
    WrittenKeyCounts(cfg, r);
    LastBlockIff(cfg, s, i);
    hide Safe, BlockHolds, Insert, Entry, Known, Chunks, Shape, Ready, CellAt, Correct, Blk, Off;
    hide Matched, Find, Content;
    var u := Insert(s.tree, x, bt);
    if BlockHolds(cfg, s.mem, x, bt[|x| - 1]) {
      forall y, b | Entry(u, y, b) ensures BlockHolds(cfg, s.mem, y, b) { RecordLastAt(cfg, s, i, y, b); }
    } else {
      InsertEntry(s.tree, x, bt, x, bt[|x| - 1]);
      var e := Entry(u, x, bt[|x| - 1]);
      assert e;
    }
  }

  lemma RecordLastAt(cfg: Config, s: Sys, i: nat, y: seq<Chunk>, b: nat)
    requires ConfigOk(cfg) && Safe(cfg, s) && Content(cfg, s) && i < |s.running| && Ready(cfg, s.running[i]) && Shape(s.tree)
    requires (s.running[i].kv.cursor + 1) % cfg.bs == 0
    requires var r := s.running[i]; var x := WrittenKey(cfg, r);
      0 < |x| <= |r.kv.table| && BlockHolds(cfg, s.mem, x, r.kv.table[|x| - 1]) && Entry(Insert(s.tree, x, r.kv.table), y, b)
    ensures BlockHolds(cfg, s.mem, y, b)
  {
    hide Safe, BlockHolds, Insert, Entry, Known, Matched, Find, Chunks, Shape, Ready, Content, Blk, Off;
    var r := s.running[i];
    var x := WrittenKey(cfg, r);
    WrittenKeyCounts(cfg, r);
    InsertEntry(s.tree, x, r.kv.table, y, b);
    if Entry(s.tree, y, b) {
      OldBlock(cfg, s, y, b);
    } else if |y| == |x| {
      assert y == x;
    } else {
      assert y == x[..|y| - 1 + 1];
      NewBlockRight(cfg, s, i, x, |y| - 1);
    }
  }

  // ---------------------------------------------------------------- admission past the length limit

  /** Without prefix sharing nothing matches, so nothing overflows. */
  lemma NoRadixNoOverflow(cfg: Config, s: Sys, budget: int)
    requires ConfigOk(cfg) && !cfg.useRadix && Budgeted(cfg, s, budget) && s.waiting != []
    requires TreeOk(s.tree, Handles(s.running)) && s.waiting[0].Seq() != []
    ensures !AdmitOne(cfg, s, budget).Overflow?
  {
    hide Budgeted, TreeOk, Evict, Free, Ref, Walk, Pinned, Unpin, Chunks;
    BudgetedCore(cfg, s, budget);
    EmptyStays(LookupKey(cfg, s.waiting[0]), 0);
  }

  /** A request no longer than the context never overflows at admission. */
  lemma ShortNoOverflow(cfg: Config, s: Sys, budget: int)
    requires ConfigOk(cfg) && Budgeted(cfg, s, budget) && s.waiting != [] && |s.waiting[0].Seq()| <= cfg.maxLen
    requires TreeOk(s.tree, Handles(s.running)) && s.waiting[0].Seq() != []
    ensures !AdmitOne(cfg, s, budget).Overflow?
  {
    hide Budgeted, TreeOk, Evict, Free, Ref, Walk, Pinned, Unpin, Chunks;
    BudgetedCore(cfg, s, budget);
    MatchFacts(cfg, s.tree, s.waiting[0]);
  }

  /** No request of the queue can overflow: sharing is off, or all fit the context. */
  ghost predicate QueueFits(cfg: Config, s: Sys) {
    !cfg.useRadix || forall i {:trigger s.waiting[i]} :: 0 <= i < |s.waiting| ==> |s.waiting[i].Seq()| <= cfg.maxLen
  }

  lemma {:induction false} AdmitLoopFits(cfg: Config, s: Sys, budget: int)
    requires ConfigOk(cfg) && Budgeted(cfg, s, budget) && QueueFits(cfg, s)
    ensures !AdmitLoop(cfg, s, budget).broken
    decreases |s.waiting|
  {
    hide Budgeted, Inv, Funded, TreeOk, Core, Shape, AdmitOne, Parked, Safe;
    BudgetedCore(cfg, s, budget);
    if s.waiting != [] {
      AttemptShape(cfg, s, budget);
      AttemptFrame(cfg, s, budget);
      if !cfg.useRadix {
        NoRadixNoOverflow(cfg, s, budget);
      } else {
        assert |s.waiting[0].Seq()| <= cfg.maxLen;
        ShortNoOverflow(cfg, s, budget);
      }
      var a := AdmitOne(cfg, s, budget);
      if a.Admitted? {
        AdmittedKeeps(cfg, s, budget);
        AdmitLoopFits(cfg, a.sys, a.budget);
      }
    }
  }

  lemma AttemptFrame(cfg: Config, s: Sys, budget: int)
    requires ConfigOk(cfg) && TreeOk(s.tree, Handles(s.running)) && s.pc.Prefilling?
    requires s.waiting != [] && s.waiting[0].Seq() != []
    ensures var a := AdmitOne(cfg, s, budget); a.Admitted? ==> a.sys.waiting == s.waiting[1..]
  {
    hide TreeOk, Shape, LruOk, Evict, Free, Ref, Find, Walk, Matched, Pinned, Chunks, CeilDiv, Pin, Unpin, Without;
  }

  /** Finishing never leaves the contract when sharing is off or the divergence point is floored. */
  lemma {:induction false} FinishNoFault(cfg: Config, s: Sys, i: nat)
    requires ConfigOk(cfg) && Finishing(cfg, s, i) && !s.fault && (!cfg.useRadix || cfg.floored)
    ensures !FinishFrom(cfg, s, i).fault
    decreases |s.running| - i
  {
    hide Finishing, Inv, FinishAt, Ready;
    FinishBounds(cfg, s, i);
    if i < |s.running| {
      FinishStep(cfg, s, i);
      if s.running[i].phase != Finished {
        FinishNoFault(cfg, s, i + 1);
      } else {
        FinishingSafe(cfg, s, i);
        FinishNoFault(cfg, FinishAt(cfg, s, i), i);
      }
    }
  }
}
