/**
 Attention read off either storage. The paged kernels gather keys and values through the padded
 block table, the contiguous one reads the packed view; with the same history behind both storages
 every kernel returns the softmax average over that history, so they return the same row.
 */
module PagedAttend {
  import opened Tokens
  import opened CacheSpec
  import opened AttentionSpec
  import K = AttentionKernels
  import D = AttentionDecode
  import P = PagedStore
  import B = PagedBatch
  import C = KvCache

  /** The rows of one head as numbers: what the history says, whatever stores it. */
  ghost function History(rows: seq<B.TokenRow>, kind: nat, head: nat, val: int -> real): (r: seq<seq<real>>)
    ensures |r| == |rows|
    ensures forall p :: 0 <= p < |rows| ==> r[p] == HistoryRow(rows[p], kind, head, val)
    ensures K.Rows(r)
  {
    seq(|rows|, p requires 0 <= p < |rows| => HistoryRow(rows[p], kind, head, val))
  }

  ghost function HistoryRow(row: B.TokenRow, kind: nat, head: nat, val: int -> real): (r: seq<real>)
    ensures |r| == K.HeadDim
  {
    seq(K.HeadDim, d requires 0 <= d < K.HeadDim => val(row.at(kind, head, d)))
  }

  /** One sequence of a batch, as a kernel sees it. */
  datatype View = View(layer: nat, caches: seq<Kv>, table2d: seq<nat>, maxBlocks: nat, s: nat)

  ghost predicate ViewOk(g: P.Geometry, pool: seq<int>, v: View, rows: seq<B.TokenRow>) {
    && g.hd == K.HeadDim && v.layer < g.layers && v.s < |v.caches| && v.caches[v.s].cursor == |rows|
    && (forall r :: 0 <= r < |v.caches| ==> |v.caches[r].table| <= v.maxBlocks)
    && B.Tabled(v.caches, v.table2d, v.maxBlocks, |v.caches|)
    && B.Holds(g, pool, v.layer, v.caches[v.s].table, rows)
  }

  lemma HoldsAt(g: P.Geometry, pool: seq<int>, layer: nat, table: seq<nat>, rows: seq<B.TokenRow>, kind: nat, head: nat, p: nat, row: seq<int>, val: int -> real)
    requires g.hd == K.HeadDim && B.Holds(g, pool, layer, table, rows) && kind < 2 && head < g.nkv && p < |rows|
    requires B.RowRead(g, pool, layer, table, kind, head, p, row)
    ensures seq(K.HeadDim, d requires 0 <= d < K.HeadDim => if d < |row| then val(row[d]) else 0.0) == HistoryRow(rows[p], kind, head, val)
  {
    hide P.At, P.PoolFits, Blk, Off;
  }

  /** The gather of one head, as numbers. */
  method Gather(g: P.Geometry, pool: array<int>, v: View, kind: nat, head: nat, val: int -> real, ghost rows: seq<B.TokenRow>)
    returns (m: seq<seq<real>>)
    requires ViewOk(g, pool[..], v, rows) && kind < 2 && head < g.nkv
    ensures m == History(rows, kind, head, val)
  {
    hide B.RowRead, B.Holds, B.Tabled, Blk, Off;
    ViewFits(g, pool[..], v, rows);
    var out := B.ReadBack(g, pool, v.layer, v.caches, v.table2d, v.maxBlocks, v.s, kind, head);
    m := [];
    var p := 0;
    while p < |out|
      invariant 0 <= p <= |out| && |m| == p
      invariant forall q :: 0 <= q < p ==> m[q] == HistoryRow(rows[q], kind, head, val)
    {
      HoldsAt(g, pool[..], v.layer, v.caches[v.s].table, rows, kind, head, p, out[p], val);
      var row := out[p];
      m := m + [seq(K.HeadDim, d requires 0 <= d < K.HeadDim => if d < |row| then val(row[d]) else 0.0)];
      p := p + 1;
    }
  }

  lemma ViewFits(g: P.Geometry, pool: seq<int>, v: View, rows: seq<B.TokenRow>)
    requires ViewOk(g, pool, v, rows)
    ensures P.PoolFits(g, pool) && B.TableFits(g, v.caches[v.s].table, v.caches[v.s].cursor)
  {}

  /** The packed view of one head, as numbers. */
  method ReadView(g: P.Geometry, view: seq<int>, n: nat, kind: nat, head: nat, val: int -> real, ghost rows: seq<B.TokenRow>)
    returns (m: seq<seq<real>>)
    requires g.hd == K.HeadDim && n == |rows| && head < g.nkv && Packs(g, view, kind, rows)
    ensures m == History(rows, kind, head, val)
  {
    hide P.Place;
    m := [];
    var p := 0;
    while p < n
      invariant 0 <= p <= n && |m| == p
      invariant forall q :: 0 <= q < p ==> m[q] == HistoryRow(rows[q], kind, head, val)
    {
      PacksAt(g, view, kind, rows, head, p, val);
      var at := p;
      m := m + [seq(K.HeadDim, d requires 0 <= d < K.HeadDim =>
        if P.Place(n, g.hd, head, at, d) < |view| then val(view[P.Place(n, g.hd, head, at, d)]) else 0.0)];
      p := p + 1;
    }
  }

  /** The view holds the history, heads by positions by columns. */
  ghost predicate Packs(g: P.Geometry, view: seq<int>, kind: nat, rows: seq<B.TokenRow>) {
    forall h, p, d :: 0 <= h < g.nkv && 0 <= p < |rows| && 0 <= d < g.hd ==>
      P.Place(|rows|, g.hd, h, p, d) < |view| && view[P.Place(|rows|, g.hd, h, p, d)] == rows[p].at(kind, h, d)
  }

  lemma PacksAt(g: P.Geometry, view: seq<int>, kind: nat, rows: seq<B.TokenRow>, head: nat, p: nat, val: int -> real)
    requires g.hd == K.HeadDim && Packs(g, view, kind, rows) && head < g.nkv && p < |rows|
    ensures seq(K.HeadDim, d requires 0 <= d < K.HeadDim =>
        if P.Place(|rows|, g.hd, head, p, d) < |view| then val(view[P.Place(|rows|, g.hd, head, p, d)]) else 0.0)
      == HistoryRow(rows[p], kind, head, val)
  {
    hide P.Place;
  }

  /** What `k_view` or `v_view` returns packs the history the buffer holds. */
  lemma ViewPacks(g: P.Geometry, maxLen: nat, buffer: seq<int>, view: seq<int>, kind: nat, rows: seq<B.TokenRow>)
    requires C.BufferHolds(g.nkv, maxLen, g.hd, buffer, kind, rows)
    requires forall h, t, d :: 0 <= h < g.nkv && 0 <= t < |rows| && 0 <= d < g.hd ==>
      && P.Place(|rows|, g.hd, h, t, d) < |view| && P.Place(maxLen, g.hd, h, t, d) < |buffer|
      && view[P.Place(|rows|, g.hd, h, t, d)] == buffer[P.Place(maxLen, g.hd, h, t, d)]
    ensures Packs(g, view, kind, rows)
  {
    hide P.Place, C.TensorSize;
  }

  // ---------------------------------------------------------------- the kernels over each storage

  /** One row of the paged kernel, `seqQ` new queries at the end of the sequence. */
  method PagedRow(e: real -> real, g: P.Geometry, pool: array<int>, v: View, head: nat, val: int -> real, q: seq<real>, scalar: real,
                  seqQ: nat, qb: nat, row: nat, ghost rows: seq<B.TokenRow>) returns (out: seq<real>)
    requires IsExp(e) && ViewOk(g, pool[..], v, rows) && head < g.nkv && |q| == K.HeadDim && row < K.Br && 0 < seqQ <= |rows|
    ensures |out| == K.HeadDim
    ensures var (mode, p) := (K.Causal(|rows| - seqQ), qb * K.Br + row);
      forall c :: 0 <= c < K.HeadDim ==>
        && 0 < K.Visible(mode, p, |rows|) <= |rows|
        && out[c] == Average(e, K.Scores(q, History(rows, P.KEY, head, val), scalar, mode), K.Column(History(rows, P.VALUE, head, val), c), K.Visible(mode, p, |rows|))
  {
    hide IsExp, Average, K.Scores, K.Column, B.Holds, B.Tabled;
    var ks := Gather(g, pool, v, P.KEY, head, val, rows);
    var vs := Gather(g, pool, v, P.VALUE, head, val, rows);
    out := K.AttendRow(e, q, ks, vs, scalar, K.Causal(v.caches[v.s].cursor - seqQ), qb, row);
  }

  /** One row of the contiguous kernel. Its causal rule counts queries from position zero. */
  method ContiguousRow(e: real -> real, g: P.Geometry, kView: seq<int>, vView: seq<int>, n: nat, head: nat, val: int -> real,
                       q: seq<real>, scalar: real, qb: nat, row: nat, ghost rows: seq<B.TokenRow>) returns (out: seq<real>)
    requires IsExp(e) && g.hd == K.HeadDim && 0 < n == |rows| && head < g.nkv && |q| == K.HeadDim && row < K.Br
    requires Packs(g, kView, P.KEY, rows) && Packs(g, vView, P.VALUE, rows)
    ensures |out| == K.HeadDim
    ensures var (mode, p) := (K.Causal(0), qb * K.Br + row);
      forall c :: 0 <= c < K.HeadDim ==>
        && 0 < K.Visible(mode, p, |rows|) <= |rows|
        && out[c] == Average(e, K.Scores(q, History(rows, P.KEY, head, val), scalar, mode), K.Column(History(rows, P.VALUE, head, val), c), K.Visible(mode, p, |rows|))
  {
    hide IsExp, Average, K.Scores, K.Column, Packs;
    var ks := ReadView(g, kView, n, P.KEY, head, val, rows);
    var vs := ReadView(g, vView, n, P.VALUE, head, val, rows);
    out := K.AttendRow(e, q, ks, vs, scalar, K.Causal(0), qb, row);
  }

  /** A first prefill: both storages, both kernels, one row. */
  method PrefillBoth(e: real -> real, g: P.Geometry, pool: array<int>, v: View, kView: seq<int>, vView: seq<int>, head: nat, val: int -> real,
                     q: seq<real>, scalar: real, qb: nat, row: nat, ghost rows: seq<B.TokenRow>) returns (paged: seq<real>, contiguous: seq<real>)
    requires IsExp(e) && ViewOk(g, pool[..], v, rows) && head < g.nkv && |q| == K.HeadDim && row < K.Br && 0 < |rows|
    requires Packs(g, kView, P.KEY, rows) && Packs(g, vView, P.VALUE, rows)
    ensures paged == contiguous
  {
    hide IsExp, Average, K.Scores, K.Column, Packs, B.Holds, B.Tabled, K.Visible;
    var n := v.caches[v.s].cursor;
    paged := PagedRow(e, g, pool, v, head, val, q, scalar, n, qb, row, rows);
    contiguous := ContiguousRow(e, g, kView, vView, n, head, val, q, scalar, qb, row, rows);
  }

  /** A decode step: single pass or any number of splits, one row, the average over the whole history. */
  method DecodeBoth(e: real -> real, ln: real -> real, g: P.Geometry, pool: array<int>, v: View, head: nat, val: int -> real,
                    q: seq<real>, scalar: real, numSplits: nat, ghost rows: seq<B.TokenRow>) returns (one: seq<real>, split: seq<real>)
    requires IsExp(e) && IsLog(e, ln) && ViewOk(g, pool[..], v, rows) && head < g.nkv && |q| == K.HeadDim && 0 < |rows| && numSplits > 0
    ensures one == split && |one| == K.HeadDim
    ensures forall c :: 0 <= c < K.HeadDim ==>
      one[c] == Average(e, D.FullScores(q, History(rows, P.KEY, head, val), scalar), K.Column(History(rows, P.VALUE, head, val), c), |rows|)
  {
    hide IsExp, IsLog, Average, D.FullScores, K.Column, B.Holds, B.Tabled;
    var ks := Gather(g, pool, v, P.KEY, head, val, rows);
    var vs := Gather(g, pool, v, P.VALUE, head, val, rows);
    one := D.DecodeRow(e, q, ks, vs, scalar);
    split := D.SplitDecodeRow(e, ln, q, ks, vs, scalar, numSplits);
  }
}
