/**
 What the cache cells hold: every cell a running request or the tree relies on is the cell the
 model computes from exactly the tokens up to that position, whoever wrote it and whenever.
 */
module ServingContent {
  import opened Basics
  import opened Tokens
  import opened PoolSpec
  import opened CacheSpec
  import opened RadixSpec
  import opened RadixUpdate
  import opened RadixInsertEvict
  import opened ServingState
  import opened ServingCore
  import opened Serving
  import opened ServingForward

  /** The cells of a token sequence computed in isolation, left to right. */
  function Correct(cfg: Config, s: seq<Token>): (r: seq<Cell>)
    ensures |r| == |s|
  {
    if s == [] then [] else
      var before := Correct(cfg, s[..|s| - 1]);
      before + [cfg.kv(before, s[|s| - 1])]
  }

  lemma {:induction false} CorrectPrefix(cfg: Config, s: seq<Token>, k: nat)
    requires k <= |s|
    ensures Correct(cfg, s)[..k] == Correct(cfg, s[..k])
    decreases |s|
  {
    if k < |s| {
      var t := s[..|s| - 1];
      CorrectPrefix(cfg, t, k);
      assert t[..k] == s[..k];
      assert Correct(cfg, s)[..|t|] == Correct(cfg, t);
    } else {
      assert s[..k] == s;
    }
  }

  // ---------------------------------------------------------------- content predicates

  /** The first `n` positions of request `r`, read through its table, are what its own tokens give. */
  ghost predicate ContentAt(cfg: Config, mem: seq<seq<Cell>>, r: Req, n: nat)
    requires ConfigOk(cfg)
  {
    n <= |r.Seq()| && Gather(mem, r.kv.table, n, cfg.bs) == Correct(cfg, r.Seq()[..n])
  }

  /** Block `b` holds the last block's worth of cells of the tokens in `x`. */
  ghost predicate BlockHolds(cfg: Config, mem: seq<seq<Cell>>, x: seq<Chunk>, b: nat)
    requires ConfigOk(cfg)
  {
    cfg.bs <= |Flat(x)| && b < |mem| && mem[b] == Correct(cfg, Flat(x))[|Flat(x)| - cfg.bs..]
  }

  /** Every block the tree records holds the cells of the tokens on its root path. */
  ghost predicate ContentTree(cfg: Config, mem: seq<seq<Cell>>, t: Tree)
    requires ConfigOk(cfg)
  {
    forall x, b :: Entry(t, x, b) ==> BlockHolds(cfg, mem, x, b)
  }

  ghost predicate Content(cfg: Config, s: Sys)
    requires ConfigOk(cfg)
  {
    && ContentTree(cfg, s.mem, s.tree)
    && (forall i {:trigger s.running[i]} :: 0 <= i < |s.running| ==> ContentAt(cfg, s.mem, s.running[i], s.running[i].kv.cursor))
  }

  // ---------------------------------------------------------------- adopting a match equals recomputing it

  lemma BlockCell(cfg: Config, mem: seq<seq<Cell>>, s: seq<Token>, j: nat, b: nat, o: nat)
    requires ConfigOk(cfg) && j < |s| / cfg.bs && o < cfg.bs && BlockHolds(cfg, mem, Chunks(s, cfg.bs)[..j + 1], b)
    ensures |mem[b]| == cfg.bs && j * cfg.bs + o < |s| && mem[b][o] == Correct(cfg, s)[j * cfg.bs + o]
  {
    hide Correct, Flat, Chunks;
    var bs := cfg.bs;
    FlatChunks(s, j + 1, bs);
    var n := j * bs;
    assert (j + 1) * bs == n + bs;
    CorrectPrefix(cfg, s, n + bs);
    var x := Chunks(s, bs)[..j + 1];
    assert mem[b] == Correct(cfg, s[..n + bs])[n..];
    assert mem[b][o] == Correct(cfg, s)[..n + bs][n + o];
  }

  lemma AdoptedCell(cfg: Config, mem: seq<seq<Cell>>, t: Tree, r: Req, p: nat)
    requires ConfigOk(cfg) && ContentTree(cfg, mem, t) && Adopted(cfg, t, r)
    requires r.shared * cfg.bs <= |r.Seq()| && p < r.shared * cfg.bs
    ensures CellAt(mem, r.kv.table, p, cfg.bs) == Correct(cfg, r.Seq())[p]
  {
    hide Correct, BlockHolds, Chunks, Entry;
    BlkBelow(p, r.shared, cfg.bs);
    BlkOff(p, cfg.bs);
    hide Blk, Off;
    var j := Blk(p, cfg.bs);
    var b := r.kv.table[j];
    var x := Chunks(r.Seq(), cfg.bs)[..j + 1];
    assert Entry(t, x, b);
    BlockCell(cfg, mem, r.Seq(), j, b, Off(p, cfg.bs));
    BlockThere(cfg, mem, x, b);
  }

  lemma BlockThere(cfg: Config, mem: seq<seq<Cell>>, x: seq<Chunk>, b: nat)
    requires ConfigOk(cfg) && BlockHolds(cfg, mem, x, b)
    ensures b < |mem| && |mem[b]| == cfg.bs
  {}

  /** A matched prefix read through its blocks is the prefix computed from scratch. */
  lemma AdoptedContent(cfg: Config, mem: seq<seq<Cell>>, t: Tree, r: Req)
    requires ConfigOk(cfg) && ContentTree(cfg, mem, t) && Adopted(cfg, t, r) && r.shared * cfg.bs <= |r.Seq()|
    ensures ContentAt(cfg, mem, r, r.shared * cfg.bs)
  {
    hide Correct, Adopted, CellAt;
    var n := r.shared * cfg.bs;
    CorrectPrefix(cfg, r.Seq(), n);
    forall p | 0 <= p < n ensures CellAt(mem, r.kv.table, p, cfg.bs) == Correct(cfg, r.Seq())[..n][p] {
      AdoptedCell(cfg, mem, t, r, p);
    }
  }

  // ---------------------------------------------------------------- writing tokens

  /** The slot of position `p` exists. */
  predicate InMem(mem: seq<seq<Cell>>, table: seq<nat>, p: nat, bs: nat)
    requires bs > 0
  {
    Blk(p, bs) < |table| && table[Blk(p, bs)] < |mem| && |mem[table[Blk(p, bs)]]| == bs
  }

  lemma SetCellHere(mem: seq<seq<Cell>>, table: seq<nat>, q: nat, bs: nat, c: Cell)
    requires bs > 0 && InMem(mem, table, q, bs)
    ensures CellAt(SetCell(mem, table, q, bs, c), table, q, bs) == c
    ensures forall b :: 0 <= b < |mem| && b != table[Blk(q, bs)] ==> SetCell(mem, table, q, bs, c)[b] == mem[b]
  {
    hide Blk, Off;
  }

  lemma SetCellElsewhere(mem: seq<seq<Cell>>, table: seq<nat>, q: nat, bs: nat, c: Cell, p: nat)
    requires bs > 0 && InMem(mem, table, q, bs) && p != q
    requires Blk(p, bs) < |table| && (Blk(p, bs) != Blk(q, bs) ==> table[Blk(p, bs)] != table[Blk(q, bs)])
    ensures CellAt(SetCell(mem, table, q, bs, c), table, p, bs) == CellAt(mem, table, p, bs)
  {
    hide Blk, Off;
    if Blk(p, bs) == Blk(q, bs) && Off(p, bs) == Off(q, bs) { BlkOffDistinct(p, q, bs); }
  }

  /** Table entries from block `from` on are named once. */
  ghost predicate Private(table: seq<nat>, from: nat) {
    forall i, j {:trigger table[i], table[j]} :: 0 <= i < |table| && from <= j < |table| && i != j ==> table[i] != table[j]
  }

  ghost predicate Sized'(mem: seq<seq<Cell>>, bs: nat) {
    forall b :: 0 <= b < |mem| ==> |mem[b]| == bs
  }

  ghost predicate TableIn(mem: seq<seq<Cell>>, table: seq<nat>) {
    forall j :: 0 <= j < |table| ==> table[j] < |mem|
  }

  lemma WriteOne(cfg: Config, mem: seq<seq<Cell>>, table: seq<nat>, s: seq<Token>, w: nat)
    requires ConfigOk(cfg) && w < |s| && Blk(w, cfg.bs) < |table|
    requires Sized'(mem, cfg.bs) && TableIn(mem, table) && Private(table, Blk(w, cfg.bs))
    requires Gather(mem, table, w, cfg.bs) == Correct(cfg, s[..w])
    ensures var mem' := SetCell(mem, table, w, cfg.bs, cfg.kv(Gather(mem, table, w, cfg.bs), s[w]));
      && Gather(mem', table, w + 1, cfg.bs) == Correct(cfg, s[..w + 1])
      && (forall b :: 0 <= b < |mem| && b != table[Blk(w, cfg.bs)] ==> mem'[b] == mem[b])
  {
    var bs := cfg.bs;
    var c := cfg.kv(Gather(mem, table, w, bs), s[w]);
    var mem' := SetCell(mem, table, w, bs, c);
    hide Blk, Off, SetCell, CellAt;
    SetCellHere(mem, table, w, bs, c);
    forall p | 0 <= p < w ensures CellAt(mem', table, p, bs) == CellAt(mem, table, p, bs) {
      BlkMono(p, w, bs);
      SetCellElsewhere(mem, table, w, bs, c, p);
    }
    assert s[..w + 1][..w] == s[..w];
    assert Correct(cfg, s[..w + 1]) == Correct(cfg, s[..w]) + [c];
    assert Gather(mem', table, w + 1, bs) == Gather(mem, table, w, bs) + [c];
  }

  /** Writing the rest of a sequence makes its cells correct and touches only its own blocks. */
  lemma {:induction false} WriteContent(cfg: Config, mem: seq<seq<Cell>>, table: seq<nat>, s: seq<Token>, w: nat)
    requires ConfigOk(cfg) && w <= |s| <= |table| * cfg.bs
    requires Sized'(mem, cfg.bs) && TableIn(mem, table) && Private(table, Blk(w, cfg.bs))
    requires Gather(mem, table, w, cfg.bs) == Correct(cfg, s[..w])
    ensures var mem' := WriteToks(cfg, mem, table, w, s[w..]);
      && Sized'(mem', cfg.bs) && Gather(mem', table, |s|, cfg.bs) == Correct(cfg, s)
      && (forall b :: 0 <= b < |mem| && (forall j :: Blk(w, cfg.bs) <= j < |table| ==> table[j] != b) ==> mem'[b] == mem[b])
    decreases |s| - w
  {
    hide Correct, Gather, CellAt, Blk, Off, SetCell;
    if w < |s| {
      BlkBelow(w, |table|, cfg.bs);
      WriteOne(cfg, mem, table, s, w);
      BlkMono(w, w + 1, cfg.bs);
      var next := SetCell(mem, table, w, cfg.bs, cfg.kv(Gather(mem, table, w, cfg.bs), s[w]));
      assert s[w..][1..] == s[w + 1..];
      WriteContent(cfg, next, table, s, w + 1);
    } else {
      assert s[..w] == s;
    }
  }

  // ---------------------------------------------------------------- frames

  lemma ContentFrame(cfg: Config, mem: seq<seq<Cell>>, mem': seq<seq<Cell>>, r: Req, n: nat)
    requires ConfigOk(cfg) && ContentAt(cfg, mem, r, n) && |mem'| == |mem|
    requires forall j :: 0 <= j < |r.kv.table| && r.kv.table[j] < |mem| ==> mem'[r.kv.table[j]] == mem[r.kv.table[j]]
    ensures ContentAt(cfg, mem', r, n)
  {
    hide Correct;
    assert Gather(mem', r.kv.table, n, cfg.bs) == Gather(mem, r.kv.table, n, cfg.bs);
  }

  lemma ContentTreeFrame(cfg: Config, mem: seq<seq<Cell>>, mem': seq<seq<Cell>>, t: Tree)
    requires ConfigOk(cfg) && ContentTree(cfg, mem, t) && |mem'| == |mem|
    requires forall b :: 0 <= b < |mem| && Held(t, b) ==> mem'[b] == mem[b]
    ensures ContentTree(cfg, mem', t)
  {
    forall x, b | Entry(t, x, b) ensures BlockHolds(cfg, mem', x, b) {
      assert Held(t, b);
      assert BlockHolds(cfg, mem, x, b);
    }
  }

  lemma ContentTreeSub(cfg: Config, mem: seq<seq<Cell>>, t: Tree, u: Tree)
    requires ConfigOk(cfg) && ContentTree(cfg, mem, t) && forall x, b :: Entry(u, x, b) ==> Entry(t, x, b)
    ensures ContentTree(cfg, mem, u)
  {}

  /** A longer table and a longer sequence do not disturb what is already there. */
  lemma ContentGrow(cfg: Config, mem: seq<seq<Cell>>, o: Req, r: Req, n: nat)
    requires ConfigOk(cfg) && ContentAt(cfg, mem, o, n) && n <= |o.kv.table| * cfg.bs
    requires o.kv.table <= r.kv.table && o.Seq() <= r.Seq()
    ensures ContentAt(cfg, mem, r, n)
  {
    hide Correct;
    assert r.Seq()[..n] == o.Seq()[..n];
    forall p | 0 <= p < n ensures CellAt(mem, r.kv.table, p, cfg.bs) == CellAt(mem, o.kv.table, p, cfg.bs) {
      BlkBelow(p, |o.kv.table|, cfg.bs);
    }
    assert Gather(mem, r.kv.table, n, cfg.bs) == Gather(mem, o.kv.table, n, cfg.bs);
  }

  /** What a finished request records is true of the tokens it is recorded under. */
  lemma RecordedContent(cfg: Config, mem: seq<seq<Cell>>, r: Req, j: nat)
    requires ConfigOk(cfg) && ContentAt(cfg, mem, r, r.kv.cursor) && j < r.kv.cursor / cfg.bs && j < |r.kv.table|
    requires Sized'(mem, cfg.bs) && r.kv.table[j] < |mem|
    ensures BlockHolds(cfg, mem, Chunks(r.Seq()[..r.kv.cursor], cfg.bs)[..j + 1], r.kv.table[j])
  {
    hide Correct;
    var bs := cfg.bs;
    var s := r.Seq()[..r.kv.cursor];
    FlatChunks(s, j + 1, bs);
    CorrectPrefix(cfg, s, (j + 1) * bs);
    assert (j + 1) * bs == j * bs + bs;
    var b := r.kv.table[j];
    var x := Chunks(s, bs)[..j + 1];
    var want := Correct(cfg, Flat(x))[|Flat(x)| - bs..];
    forall o | 0 <= o < bs ensures mem[b][o] == want[o] {
      BlkOffOf(j, o, bs);
      assert Gather(mem, r.kv.table, r.kv.cursor, bs)[j * bs + o] == CellAt(mem, r.kv.table, j * bs + o, bs) == mem[b][o];
    }
    assert mem[b] == want;
  }
}
