/**
 The attention kernels over exact reals, one query row at a time, with the lanes that share the row
 as explicit indices and the shuffles as reads of the other lanes' previous values.
 */
module AttentionKernels {
  import opened AttentionSpec

  /** Rows per query block, keys per tile, columns per row. */
  const Br: nat := 64
  const Bc: nat := 64
  const HeadDim: nat := 64
  /** Keys, and columns, per lane of the four that share a row. */
  const PerLane: nat := 16

  // ---------------------------------------------------------------- scores

  function DotTo(q: seq<real>, k: seq<real>, n: nat): real
    requires n <= |q| && n <= |k|
  {
    if n == 0 then 0.0 else DotTo(q, k, n - 1) + q[n - 1] * k[n - 1]
  }

  ghost predicate Rows(rows: seq<seq<real>>) {
    forall j :: 0 <= j < |rows| ==> |rows[j]| == HeadDim
  }

  /** Which keys a row may see: causal with the query block shifted by `off`, all, or all with an additive mask. */
  datatype Mode = Causal(off: nat) | Full | Biased(mask: seq<real>)

  /** The scores of one query row against every key. */
  function Scores(q: seq<real>, ks: seq<seq<real>>, scalar: real, mode: Mode): (sc: seq<real>)
    requires |q| == HeadDim && Rows(ks) && (mode.Biased? ==> |mode.mask| == |ks|)
    ensures |sc| == |ks|
  {
    seq(|ks|, j requires 0 <= j < |ks| =>
      DotTo(q, ks[j], HeadDim) * scalar + if mode.Biased? then mode.mask[j] else 0.0)
  }

  /** The number of keys row `p` sees; they are the first ones. */
  function Visible(mode: Mode, p: nat, seqK: nat): nat {
    if mode.Causal? then Min(seqK, mode.off + p + 1) else seqK
  }

  /**
   Causal rows: the queries are the last `seqQ` of `seqK` tokens, and query `p` sees key `j` exactly if `j` is
   its own token or an earlier one, counted from the end of the sequence.
   */
  lemma VisibleIs(seqQ: nat, seqK: nat, p: nat, j: nat)
    requires p < seqQ <= seqK && j < seqK
    ensures j < Visible(Causal(seqK - seqQ), p, seqK) <==> seqQ - p <= seqK - j
    ensures Visible(Causal(seqK - seqQ), seqQ - 1, seqK) == seqK
    ensures p > 0 ==> Visible(Causal(seqK - seqQ), p, seqK) == Visible(Causal(seqK - seqQ), p - 1, seqK) + 1
  {}

  /** One column of the values. */
  function Column(vs: seq<seq<real>>, c: nat): (v: seq<real>)
    requires Rows(vs) && c < HeadDim
    ensures |v| == |vs|
  {
    seq(|vs|, j requires 0 <= j < |vs| => vs[j][c])
  }

  /** The rows a tile loads; past the end, zeros. */
  function Load(rows: seq<seq<real>>, i: nat, len: nat): (r: seq<seq<real>>)
    requires Rows(rows)
    ensures |r| == len
    ensures forall t :: 0 <= t < len ==> r[t] == LoadRow(rows, i + t)
    ensures Rows(r)
  {
    seq(len, t requires 0 <= t < len => LoadRow(rows, i + t))
  }

  function LoadRow(rows: seq<seq<real>>, j: nat): (r: seq<real>)
    requires Rows(rows)
    ensures |r| == HeadDim
  {
    if j < |rows| then rows[j] else Zeros()
  }

  function Zeros(): (r: seq<real>)
    ensures |r| == HeadDim
  {
    seq(HeadDim, _ => 0.0)
  }

  /** Query row times each key row, accumulated column by column. */
  method Dots(q: seq<real>, rows: seq<seq<real>>) returns (acc: seq<real>)
    requires |q| == HeadDim && Rows(rows)
    ensures |acc| == |rows| && forall j :: 0 <= j < |rows| ==> acc[j] == DotTo(q, rows[j], HeadDim)
  {
    acc := seq(|rows|, _ => 0.0);
    var k := 0;
    while k < HeadDim
      invariant 0 <= k <= HeadDim && |acc| == |rows|
      invariant forall j :: 0 <= j < |rows| ==> acc[j] == DotTo(q, rows[j], k)
    {
      var j := 0;
      while j < |rows|
        invariant 0 <= j <= |rows| && |acc| == |rows|
        invariant forall t :: 0 <= t < j ==> acc[t] == DotTo(q, rows[t], k + 1)
        invariant forall t :: j <= t < |rows| ==> acc[t] == DotTo(q, rows[t], k)
      {
        acc := acc[j := acc[j] + q[k] * rows[j][k]];
        j := j + 1;
      }
      k := k + 1;
    }
  }

  /**
   The masked scores of one lane's keys. `fullPast` is the fast path that leaves out the comparison
   with the query's position.
   */
  method LaneScores(q: seq<real>, ks: seq<seq<real>>, scalar: real, mode: Mode, p: nat, from: nat, fullPast: bool)
    returns (s: seq<Score>)
    requires |q| == HeadDim && Rows(ks) && (mode.Biased? ==> |mode.mask| == |ks|)
    requires fullPast && mode.Causal? ==> from + PerLane - 1 <= mode.off + p
    ensures s == Tile(Scores(q, ks, scalar, mode), Visible(mode, p, |ks|), from, PerLane)
  {
    var acc := Dots(q, Load(ks, from, PerLane));
    s := [];
    var t := 0;
    while t < PerLane
      invariant 0 <= t <= PerLane
      invariant s == Tile(Scores(q, ks, scalar, mode), Visible(mode, p, |ks|), from, t)
    {
      var key := from + t;
      var seen := key < |ks| && (!mode.Causal? || fullPast || mode.off + p >= key);
      ScoreAt(q, ks, scalar, mode, p, from, t, acc, seen);
      s := s + [if seen then Fin(acc[t] * scalar + if mode.Biased? then mode.mask[key] else 0.0) else NegInf];
      t := t + 1;
    }
  }

  lemma TileNext(sc: seq<real>, n: nat, i: nat, t: nat)
    requires n <= |sc|
    ensures Tile(sc, n, i, t + 1) == Tile(sc, n, i, t) + [if i + t < n then Fin(sc[i + t]) else NegInf]
  {}

  lemma ScoreAt(q: seq<real>, ks: seq<seq<real>>, scalar: real, mode: Mode, p: nat, from: nat, t: nat, acc: seq<real>, seen: bool)
    requires |q| == HeadDim && Rows(ks) && (mode.Biased? ==> |mode.mask| == |ks|)
    requires t < |acc| && acc[t] == DotTo(q, Load(ks, from, |acc|)[t], HeadDim)
    requires seen <==> from + t < Visible(mode, p, |ks|)
    ensures seen ==> from + t < |ks|
    ensures var (sc, n) := (Scores(q, ks, scalar, mode), Visible(mode, p, |ks|));
      Tile(sc, n, from, t + 1) == Tile(sc, n, from, t)
        + [if seen then Fin(acc[t] * scalar + if mode.Biased? then mode.mask[from + t] else 0.0) else NegInf]
  {
    var sc, n := Scores(q, ks, scalar, mode), Visible(mode, p, |ks|);
    if seen {
      assert Load(ks, from, |acc|)[t] == ks[from + t];
      assert sc[from + t] == acc[t] * scalar + if mode.Biased? then mode.mask[from + t] else 0.0;
    }
    TileNext(sc, n, from, t);
  }

  // ---------------------------------------------------------------- online softmax of one lane

  lemma OnlineStep(e: real -> real, m: Score, l: real, d: real, s: Score)
    requires IsExp(e) && Reps(e, m, l, d)
    ensures var n := Max(m, s); Reps(e, n, l * Scale(e, m, n) + Scale(e, s, n), d + Weight(e, s))
  {
    hide IsExp;
    var n := Max(m, s);
    if n.Fin? {
      RepsOne(e, s, n);
      RepsRaise(e, m, l, d, n, Scale(e, s, n), Weight(e, s));
    }
  }

  /** Keep the running maximum from `base`, and the sum of this lane's weights relative to it. */
  method LaneSoftmax(e: real -> real, base: Score, s: seq<Score>) returns (m: Score, l: real)
    requires IsExp(e)
    ensures m == MaxOf(base, s) && Reps(e, m, l, Den(e, s))
  {
    hide IsExp, Scale;
    m, l := base, 0.0;
    var j := 0;
    while j < |s|
      invariant 0 <= j <= |s| && m == MaxOf(base, s[..j]) && Reps(e, m, l, Den(e, s[..j]))
    {
      assert s[..j + 1][..j] == s[..j];
      OnlineStep(e, m, l, Den(e, s[..j]), s[j]);
      var old' := m;
      m := Max(m, s[j]);
      l := l * Scale(e, old', m) + Scale(e, s[j], m);
      j := j + 1;
    }
    assert s[..j] == s;
  }

  // ---------------------------------------------------------------- the four lanes of a row

  /** Combine with another lane's pair. */
  function Merge(e: real -> real, a: (Score, real), b: (Score, real)): (Score, real) {
    if a.0 != b.0 && Below(a.0, b.0) then (b.0, a.1 * Scale(e, a.0, b.0) + b.1)
    else if Below(b.0, a.0) then (a.0, a.1 + b.1 * Scale(e, b.0, a.0))
    else a
  }

  lemma MergeReps(e: real -> real, a: (Score, real), b: (Score, real), x: real, y: real)
    requires IsExp(e) && Reps(e, a.0, a.1, x) && Reps(e, b.0, b.1, y)
    ensures Merge(e, a, b).0 == Max(a.0, b.0) && Reps(e, Merge(e, a, b).0, Merge(e, a, b).1, x + y)
  {
    hide IsExp;
    if a.0 != b.0 && Below(a.0, b.0) {
      RepsRaise(e, a.0, a.1, x, b.0, b.1, y);
    } else {
      RepsRaise(e, b.0, b.1, y, a.0, a.1, x);
    }
  }

  /** Partner of a lane in a shuffle at distance `d`. */
  function Xor(lane: nat, d: nat): nat
    requires d > 0
  {
    if lane / d % 2 == 0 then lane + d else if lane >= d then lane - d else 0
  }

  /** The two shuffle rounds: every lane ends with the maximum and the whole sum. */
  method QuadAllreduce(e: real -> real, a: seq<(Score, real)>, ghost d: seq<real>) returns (r: seq<(Score, real)>)
    requires IsExp(e) && |a| == |d| == 4
    requires forall i :: 0 <= i < 4 ==> Reps(e, a[i].0, a[i].1, d[i])
    ensures |r| == 4
    ensures forall i :: 0 <= i < 4 ==>
      r[i].0 == Max(Max(a[0].0, a[1].0), Max(a[2].0, a[3].0)) && Reps(e, r[i].0, r[i].1, d[0] + d[1] + d[2] + d[3])
  {
    hide IsExp, Merge, Reps, Xor;
    XorFacts();
    var b := seq(4, i requires 0 <= i < 4 => Merge(e, a[i], a[Xor(i, 2)]));
    MergeReps(e, a[0], a[2], d[0], d[2]);
    MergeReps(e, a[1], a[3], d[1], d[3]);
    MergeReps(e, a[2], a[0], d[2], d[0]);
    MergeReps(e, a[3], a[1], d[3], d[1]);
    r := seq(4, i requires 0 <= i < 4 => Merge(e, b[i], b[Xor(i, 1)]));
    MergeReps(e, b[0], b[1], d[0] + d[2], d[1] + d[3]);
    MergeReps(e, b[1], b[0], d[1] + d[3], d[0] + d[2]);
    MergeReps(e, b[2], b[3], d[2] + d[0], d[3] + d[1]);
    MergeReps(e, b[3], b[2], d[3] + d[1], d[2] + d[0]);
    var all := d[0] + d[1] + d[2] + d[3];
    RepsSame(e, r[0].0, r[0].1, (d[0] + d[2]) + (d[1] + d[3]), r[0].1, all);
    RepsSame(e, r[1].0, r[1].1, (d[1] + d[3]) + (d[0] + d[2]), r[1].1, all);
    RepsSame(e, r[2].0, r[2].1, (d[2] + d[0]) + (d[3] + d[1]), r[2].1, all);
    RepsSame(e, r[3].0, r[3].1, (d[3] + d[1]) + (d[2] + d[0]), r[3].1, all);
  }

  lemma XorFacts()
    ensures Xor(0, 2) == 2 && Xor(1, 2) == 3 && Xor(2, 2) == 0 && Xor(3, 2) == 1
    ensures Xor(0, 1) == 1 && Xor(1, 1) == 0 && Xor(2, 1) == 3 && Xor(3, 1) == 2
  {}

  /** Weights times values of one lane's keys, per column, relative to the maximum `m`. */
  method WeightedValues(e: real -> real, s: seq<Score>, m: Score, v: seq<seq<real>>) returns (n: seq<real>)
    requires IsExp(e) && |s| == |v| && Rows(v) && forall j :: 0 <= j < |s| ==> Below(s[j], m)
    ensures |n| == HeadDim
    ensures m.Fin? ==> forall c :: 0 <= c < HeadDim ==> Reps(e, m, n[c], Num(e, s, Column(v, c)))
  {
    hide IsExp, Num;
    n := Zeros();
    NumStart(e);
    var j := 0;
    while j < |s|
      invariant 0 <= j <= |s| && |n| == HeadDim
      invariant m.Fin? ==> forall c :: 0 <= c < HeadDim ==> Reps(e, m, n[c], Num(e, s[..j], Column(v, c)[..j]))
    {
      var weight := Scale(e, s[j], m);
      var was := n;
      var k := 0;
      while k < HeadDim
        invariant 0 <= k <= HeadDim && |n| == HeadDim
        invariant forall c :: 0 <= c < k ==> n[c] == was[c] + weight * v[j][c]
        invariant forall c :: k <= c < HeadDim ==> n[c] == was[c]
      {
        n := n[k := n[k] + weight * v[j][k]];
        k := k + 1;
      }
      if m.Fin? {
        forall c | 0 <= c < HeadDim ensures Reps(e, m, n[c], Num(e, s[..j + 1], Column(v, c)[..j + 1])) {
          NumStep(e, s, Column(v, c), j, m, was[c]);
        }
      }
      j := j + 1;
    }
    forall c | 0 <= c < HeadDim ensures Column(v, c)[..j] == Column(v, c) {}
    assert s[..j] == s;
  }

  lemma NumStart(e: real -> real)
    ensures Num(e, [], []) == 0.0
  {}

  lemma NumStep(e: real -> real, s: seq<Score>, v: seq<real>, j: nat, m: Score, y: real)
    requires IsExp(e) && j < |s| == |v| && m.Fin? && Below(s[j], m) && Reps(e, m, y, Num(e, s[..j], v[..j]))
    ensures Reps(e, m, y + Scale(e, s[j], m) * v[j], Num(e, s[..j + 1], v[..j + 1]))
  {
    assert s[..j + 1][..j] == s[..j] && v[..j + 1][..j] == v[..j];
    RepsOne(e, s[j], m);
    var k, w, x := e(m.x), Scale(e, s[j], m), v[j];
    assert (y + w * x) * k == y * k + (w * k) * x;
  }

  // ---------------------------------------------------------------- one tile of a row

  /** The lanes agree on the maximum; their sums, and the columns, stand for the keys so far. */
  ghost predicate RowState(e: real -> real, sc: seq<real>, vs: seq<seq<real>>, n: nat, m: Score, l: seq<real>, o: seq<real>)
    requires Rows(vs) && n <= |sc| && n <= |vs|
  {
    && |l| == 4 && |o| == HeadDim
    && (m.Fin? <==> n > 0)
    && (forall i :: 0 <= i < 4 ==> Reps(e, m, l[i], DenTo(e, sc, n)))
    && (forall c :: 0 <= c < HeadDim ==> Reps(e, m, o[c], NumTo(e, sc, Column(vs, c), n)))
  }

  /** The part of tile `i` that lane `lane` looks at. */
  function LaneTile(sc: seq<real>, n: nat, i: nat, lane: nat): (s: seq<Score>)
    requires n <= |sc|
    ensures |s| == PerLane
  {
    Tile(sc, n, i + lane * PerLane, PerLane)
  }

  function Sum4(d: seq<real>): real
    requires |d| == 4
  {
    d[0] + d[1] + d[2] + d[3]
  }

  /** The four lanes together cover the tile. */
  lemma LanesDen(e: real -> real, sc: seq<real>, n: nat, i: nat, d: seq<real>)
    requires n <= |sc| && |d| == 4 && forall j :: 0 <= j < 4 ==> d[j] == Den(e, LaneTile(sc, n, i, j))
    ensures DenTo(e, sc, Min(n, i)) + Sum4(d) == DenTo(e, sc, Min(n, i + Bc))
  {
    hide Den, DenTo, Tile;
    TileDen(e, sc, n, i, PerLane);
    TileDen(e, sc, n, i + PerLane, PerLane);
    TileDen(e, sc, n, i + 2 * PerLane, PerLane);
    TileDen(e, sc, n, i + 3 * PerLane, PerLane);
  }

  lemma LanesNum(e: real -> real, sc: seq<real>, v: seq<real>, n: nat, i: nat, d: seq<real>)
    requires n <= |sc| && n <= |v| && |d| == 4
    requires forall j :: 0 <= j < 4 ==> d[j] == Num(e, LaneTile(sc, n, i, j), TileV(v, i + j * PerLane, PerLane))
    ensures NumTo(e, sc, v, Min(n, i)) + Sum4(d) == NumTo(e, sc, v, Min(n, i + Bc))
  {
    hide Num, NumTo, Tile, TileV;
    TileNum(e, sc, v, n, i, PerLane);
    TileNum(e, sc, v, n, i + PerLane, PerLane);
    TileNum(e, sc, v, n, i + 2 * PerLane, PerLane);
    TileNum(e, sc, v, n, i + 3 * PerLane, PerLane);
  }

  /** The columns a lane loads are those of the values. */
  lemma LoadColumn(vs: seq<seq<real>>, i: nat, len: nat, c: nat)
    requires Rows(vs) && c < HeadDim
    ensures Column(Load(vs, i, len), c) == TileV(Column(vs, c), i, len)
  {
    var loaded := Load(vs, i, len);
    forall t | 0 <= t < len ensures Column(loaded, c)[t] == TileV(Column(vs, c), i, len)[t] {
      assert loaded[t] == LoadRow(vs, i + t);
    }
  }

  lemma LaneMax(sc: seq<real>, n: nat, i: nat, m: Score, j: nat)
    requires n <= |sc|
    ensures MaxOf(m, LaneTile(sc, n, i, j)).Fin? <==> m.Fin? || i + j * PerLane < n
  {
    var s := LaneTile(sc, n, i, j);
    MaxOfFin(m, s);
    if i + j * PerLane < n { assert s[0].Fin?; }
  }

  /** The maximum over the lanes is a score as soon as one of them saw one. */
  lemma MaxOfLanes(sc: seq<real>, n: nat, i: nat, m: Score, a: seq<Score>)
    requires n <= |sc| && |a| == 4 && (m.Fin? <==> Min(n, i) > 0)
    requires forall j :: 0 <= j < 4 ==> a[j] == MaxOf(m, LaneTile(sc, n, i, j))
    ensures Max(Max(a[0], a[1]), Max(a[2], a[3])).Fin? <==> Min(n, i + Bc) > 0
  {
    hide MaxOf, LaneTile;
    LaneMax(sc, n, i, m, 0);
    LaneMax(sc, n, i, m, 1);
    LaneMax(sc, n, i, m, 2);
    LaneMax(sc, n, i, m, 3);
  }

  ghost predicate AllBelow(s: seq<Score>, m: Score) {
    forall t :: 0 <= t < |s| ==> Below(s[t], m)
  }

  lemma MaxAbove(a: seq<Score>, j: nat, x: Score)
    requires |a| == 4 && j < 4 && Below(x, a[j])
    ensures Below(x, Max(Max(a[0], a[1]), Max(a[2], a[3])))
  {}

  /** The second half of a tile: weights times values, summed over the lanes, and the rescaling. */
  method Accumulate(e: real -> real, vs: seq<seq<real>>, i: nat, m: Score, l: seq<real>, o: seq<real>,
                    m': Score, sums: seq<real>, tiles: seq<seq<Score>>, ghost sc: seq<real>, ghost n: nat, ghost d: seq<real>)
    returns (l': seq<real>, o': seq<real>)
    requires IsExp(e) && Rows(vs) && n <= |sc| == |vs| && RowState(e, sc, vs, Min(n, i), m, l, o)
    requires |sums| == |tiles| == |d| == 4 && Below(m, m') && (m'.Fin? <==> Min(n, i + Bc) > 0)
    requires forall j :: 0 <= j < 4 ==> tiles[j] == LaneTile(sc, n, i, j) && d[j] == Den(e, tiles[j])
    requires forall j :: 0 <= j < 4 ==> Reps(e, m', sums[j], Sum4(d))
    requires forall j :: 0 <= j < 4 ==> AllBelow(tiles[j], m')
    ensures RowState(e, sc, vs, Min(n, i + Bc), m', l', o')
  {
    hide IsExp, Reps, Den, Num, DenTo, NumTo, Tile, Column, Load, Sum4, Scale;
    LanesDen(e, sc, n, i, d);
    var ratio := Scale(e, m, m');
    l' := seq(4, j requires 0 <= j < 4 => sums[j] + ratio * l[j]);
    forall j | 0 <= j < 4 ensures Reps(e, m', l'[j], DenTo(e, sc, Min(n, i + Bc))) {
      RepsRaise(e, m, l[j], DenTo(e, sc, Min(n, i)), m', sums[j], Sum4(d));
      RepsSame(e, m', sums[j] + Scale(e, m, m') * l[j], Sum4(d) + DenTo(e, sc, Min(n, i)), l'[j], DenTo(e, sc, Min(n, i + Bc)));
    }
    var parts: seq<seq<real>> := [];
    var lane := 0;
    while lane < 4
      invariant 0 <= lane <= 4 && |parts| == lane
      invariant forall j :: 0 <= j < lane ==> |parts[j]| == HeadDim
      invariant m'.Fin? ==> forall j, c :: 0 <= j < lane && 0 <= c < HeadDim ==>
        Reps(e, m', parts[j][c], Num(e, tiles[j], Column(Load(vs, i + j * PerLane, PerLane), c)))
    {
      var part := WeightedValues(e, tiles[lane], m', Load(vs, i + lane * PerLane, PerLane));
      parts := parts + [part];
      lane := lane + 1;
    }
    o' := seq(HeadDim, c requires 0 <= c < HeadDim =>
      o[c] * ratio + ((parts[0][c] + parts[2][c]) + (parts[1][c] + parts[3][c])));
    forall c | 0 <= c < HeadDim ensures Reps(e, m', o'[c], NumTo(e, sc, Column(vs, c), Min(n, i + Bc))) {
      if m'.Fin? {
        forall j | 0 <= j < 4
          ensures Reps(e, m', parts[j][c], Num(e, LaneTile(sc, n, i, j), TileV(Column(vs, c), i + j * PerLane, PerLane)))
        {
          LoadColumn(vs, i + j * PerLane, PerLane, c);
        }
        var part := [parts[0][c], parts[1][c], parts[2][c], parts[3][c]];
        ColumnStep(e, sc, Column(vs, c), n, i, m, o[c], m', part, o'[c]);
      } else {
        NothingSeen(e, m', o'[c], sc, Column(vs, c), Min(n, i + Bc));
      }
    }
  }

  lemma NothingSeen(e: real -> real, m: Score, y: real, sc: seq<real>, v: seq<real>, n: nat)
    requires m.NegInf? && n == 0
    ensures Reps(e, m, y, NumTo(e, sc, v, n))
  {}

  lemma RepsSame(e: real -> real, m: Score, y: real, d: real, y': real, d': real)
    requires Reps(e, m, y, d) && y == y' && d == d'
    ensures Reps(e, m, y', d')
  {}

  lemma RepsSum(e: real -> real, m: Score, y: real, d: real, y': real, d': real)
    requires m.Fin? && Reps(e, m, y, d) && Reps(e, m, y', d')
    ensures Reps(e, m, y + y', d + d')
  {}

  /** One column: the four lanes' parts and the rescaled old value stand for the keys up to the tile's end. */
  lemma ColumnStep(e: real -> real, sc: seq<real>, v: seq<real>, n: nat, i: nat, m: Score, y: real, m': Score, part: seq<real>, y': real)
    requires IsExp(e) && n <= |sc| && n <= |v| && |part| == 4 && m'.Fin? && Below(m, m')
    requires y' == y * Scale(e, m, m') + ((part[0] + part[2]) + (part[1] + part[3]))
    requires Reps(e, m, y, NumTo(e, sc, v, Min(n, i)))
    requires forall j :: 0 <= j < 4 ==> Reps(e, m', part[j], Num(e, LaneTile(sc, n, i, j), TileV(v, i + j * PerLane, PerLane)))
    ensures Reps(e, m', y', NumTo(e, sc, v, Min(n, i + Bc)))
  {
    hide IsExp, Num, NumTo, Scale, LaneTile, TileV, Reps;
    var d := seq(4, j requires 0 <= j < 4 => Num(e, LaneTile(sc, n, i, j), TileV(v, i + j * PerLane, PerLane)));
    LanesNum(e, sc, v, n, i, d);
    assert forall j :: 0 <= j < 4 ==> Reps(e, m', part[j], d[j]);
    RepsFour(e, m', part, d);
    var all, sum := (part[0] + part[2]) + (part[1] + part[3]), (d[0] + d[2]) + (d[1] + d[3]);
    RepsRaise(e, m, y, NumTo(e, sc, v, Min(n, i)), m', all, sum);
    Commute(y, Scale(e, m, m'), all);
    RepsSame(e, m', all + Scale(e, m, m') * y, sum + NumTo(e, sc, v, Min(n, i)), y', NumTo(e, sc, v, Min(n, i + Bc)));
  }

  lemma RepsFour(e: real -> real, m: Score, part: seq<real>, d: seq<real>)
    requires IsExp(e) && |part| == |d| == 4 && m.Fin? && forall j :: 0 <= j < 4 ==> Reps(e, m, part[j], d[j])
    ensures Reps(e, m, (part[0] + part[2]) + (part[1] + part[3]), (d[0] + d[2]) + (d[1] + d[3]))
  {
    hide IsExp, Reps;
    RepsSum(e, m, part[0], d[0], part[2], d[2]);
    RepsSum(e, m, part[1], d[1], part[3], d[3]);
    RepsSum(e, m, part[0] + part[2], d[0] + d[2], part[1] + part[3], d[1] + d[3]);
  }

  lemma Commute(y: real, k: real, all: real)
    ensures all + k * y == y * k + all
  {}

  /** Scores and running pair of each lane. */
  method Lanes(e: real -> real, q: seq<real>, ks: seq<seq<real>>, scalar: real, mode: Mode, p: nat, i: nat, fullPast: bool, m: Score)
    returns (tiles: seq<seq<Score>>, pairs: seq<(Score, real)>)
    requires IsExp(e) && |q| == HeadDim && Rows(ks) && (mode.Biased? ==> |mode.mask| == |ks|)
    requires fullPast && mode.Causal? ==> i + Bc - 1 <= mode.off + p
    ensures |tiles| == |pairs| == 4
    ensures forall j :: 0 <= j < 4 ==>
      && tiles[j] == LaneTile(Scores(q, ks, scalar, mode), Visible(mode, p, |ks|), i, j)
      && pairs[j].0 == MaxOf(m, tiles[j]) && Reps(e, pairs[j].0, pairs[j].1, Den(e, tiles[j]))
  {
    hide IsExp, Scores, MaxOf, Reps, Den, Tile;
    tiles, pairs := [], [];
    var lane := 0;
    while lane < 4
      invariant 0 <= lane <= 4 && |tiles| == |pairs| == lane
      invariant forall j :: 0 <= j < lane ==>
        && tiles[j] == LaneTile(Scores(q, ks, scalar, mode), Visible(mode, p, |ks|), i, j)
        && pairs[j].0 == MaxOf(m, tiles[j]) && Reps(e, pairs[j].0, pairs[j].1, Den(e, tiles[j]))
    {
      var s := LaneScores(q, ks, scalar, mode, p, i + lane * PerLane, fullPast);
      var lm, ll := LaneSoftmax(e, m, s);
      tiles := tiles + [s];
      pairs := pairs + [(lm, ll)];
      lane := lane + 1;
    }
  }

  /**
   One tile: every lane scores its keys and keeps its running pair, the pairs are combined, the
   old sums and columns are rescaled and the tile's part is added.
   */
  method RowTile(e: real -> real, q: seq<real>, ks: seq<seq<real>>, vs: seq<seq<real>>, scalar: real, mode: Mode,
                 p: nat, i: nat, fullPast: bool, m: Score, l: seq<real>, o: seq<real>)
    returns (m': Score, l': seq<real>, o': seq<real>)
    requires IsExp(e) && |q| == HeadDim && Rows(ks) && Rows(vs) && |ks| == |vs| && (mode.Biased? ==> |mode.mask| == |ks|)
    requires fullPast && mode.Causal? ==> i + Bc - 1 <= mode.off + p
    requires RowState(e, Scores(q, ks, scalar, mode), vs, Min(Visible(mode, p, |ks|), i), m, l, o)
    ensures RowState(e, Scores(q, ks, scalar, mode), vs, Min(Visible(mode, p, |ks|), i + Bc), m', l', o')
  {
    hide IsExp, Scores, Visible, RowState, MaxOf, Reps, Den, Tile, LaneTile, AllBelow;
    ghost var sc, n := Scores(q, ks, scalar, mode), Visible(mode, p, |ks|);
    VisibleBound(mode, p, |ks|);
    var tiles, pairs := Lanes(e, q, ks, scalar, mode, p, i, fullPast, m);
    ghost var d := [Den(e, tiles[0]), Den(e, tiles[1]), Den(e, tiles[2]), Den(e, tiles[3])];
    var merged := QuadAllreduce(e, pairs, d);
    m' := merged[0].0;
    TileMax(e, sc, vs, n, i, m, l, o, pairs, tiles, m');
    l', o' := Accumulate(e, vs, i, m, l, o, m', [merged[0].1, merged[1].1, merged[2].1, merged[3].1], tiles, sc, n, d);
  }

  /** What the combined maximum is above. */
  lemma TileMax(e: real -> real, sc: seq<real>, vs: seq<seq<real>>, n: nat, i: nat, m: Score, l: seq<real>, o: seq<real>,
                pairs: seq<(Score, real)>, tiles: seq<seq<Score>>, m': Score)
    requires Rows(vs) && n <= |sc| == |vs| && RowState(e, sc, vs, Min(n, i), m, l, o) && |pairs| == |tiles| == 4
    requires forall j :: 0 <= j < 4 ==> tiles[j] == LaneTile(sc, n, i, j) && pairs[j].0 == MaxOf(m, tiles[j])
    requires m' == Max(Max(pairs[0].0, pairs[1].0), Max(pairs[2].0, pairs[3].0))
    ensures Below(m, m') && (m'.Fin? <==> Min(n, i + Bc) > 0)
    ensures forall j :: 0 <= j < 4 ==> AllBelow(tiles[j], m')
  {
    hide Reps, DenTo, NumTo, LaneTile;
    var a := [pairs[0].0, pairs[1].0, pairs[2].0, pairs[3].0];
    MaxOfLanes(sc, n, i, m, a);
    MaxAbove(a, 0, m);
    forall j | 0 <= j < 4 ensures AllBelow(tiles[j], m') {
      forall t | 0 <= t < |tiles[j]| ensures Below(tiles[j][t], m') { MaxAbove(a, j, tiles[j][t]); }
    }
  }

  lemma VisibleBound(mode: Mode, p: nat, seqK: nat)
    ensures Visible(mode, p, seqK) <= seqK && (seqK > 0 ==> Visible(mode, p, seqK) > 0)
  {}

  // ---------------------------------------------------------------- a whole row

  lemma RowStart(e: real -> real, sc: seq<real>, vs: seq<seq<real>>, l: seq<real>, o: seq<real>)
    requires Rows(vs) && |l| == 4 && |o| == HeadDim
    ensures RowState(e, sc, vs, 0, NegInf, l, o)
  {}

  /** Normalising by the sum gives the average. */
  lemma RowEnd(e: real -> real, sc: seq<real>, vs: seq<seq<real>>, n: nat, m: Score, l: seq<real>, o: seq<real>, c: nat, lane: nat)
    requires IsExp(e) && Rows(vs) && 0 < n <= |sc| && n <= |vs| && RowState(e, sc, vs, n, m, l, o) && c < HeadDim && lane < 4
    ensures l[lane] > 0.0 && o[c] / l[lane] == Average(e, sc, Column(vs, c), n)
  {
    hide Reps, IsExp;
    DenPositive(e, sc, n);
    RepsQuotient(e, m, o[c], l[lane], NumTo(e, sc, Column(vs, c), n), DenTo(e, sc, n));
  }

  /**
   One row of the tiled kernel, paged or contiguous: tiles wholly in the future of the query block
   are skipped, tiles wholly in its past take the fast path. The result is the softmax average over
   exactly the keys the row may see.
   */
  method AttendRow(e: real -> real, q: seq<real>, ks: seq<seq<real>>, vs: seq<seq<real>>, scalar: real, mode: Mode, qb: nat, row: nat)
    returns (out: seq<real>)
    requires IsExp(e) && |q| == HeadDim && Rows(ks) && Rows(vs) && |ks| == |vs| > 0 && row < Br
    requires mode.Biased? ==> |mode.mask| == |ks|
    ensures |out| == HeadDim && 0 < Visible(mode, qb * Br + row, |ks|) <= |ks|
    ensures forall c :: 0 <= c < HeadDim ==>
      out[c] == Average(e, Scores(q, ks, scalar, mode), Column(vs, c), Visible(mode, qb * Br + row, |ks|))
  {
    hide IsExp, Scores, RowState, Average, Column;
    var p := qb * Br + row;
    ghost var sc, n := Scores(q, ks, scalar, mode), Visible(mode, p, |ks|);
    VisibleBound(mode, p, |ks|);
    var m, l, o := NegInf, [0.0, 0.0, 0.0, 0.0], Zeros();
    RowStart(e, sc, vs, l, o);
    var i := 0;
    while i < |ks|
      invariant RowState(e, sc, vs, Min(n, i), m, l, o)
    {
      if mode.Causal? && i >= mode.off + qb * Br + Br {
        i := i + Bc;
        continue;
      }
      var fullPast := mode.Causal? && i + Bc - 1 <= mode.off + qb * Br;
      m, l, o := RowTile(e, q, ks, vs, scalar, mode, p, i, fullPast, m, l, o);
      i := i + Bc;
    }
    RowLengths(e, sc, vs, n, m, l, o);
    forall c | 0 <= c < HeadDim ensures l[c / PerLane] > 0.0 && o[c] / l[c / PerLane] == Average(e, sc, Column(vs, c), n) {
      RowEnd(e, sc, vs, n, m, l, o, c, c / PerLane);
    }
    out := seq(HeadDim, c requires 0 <= c < HeadDim && |o| == HeadDim && |l| == 4 && l[c / PerLane] > 0.0 => o[c] / l[c / PerLane]);
  }

  lemma RowLengths(e: real -> real, sc: seq<real>, vs: seq<seq<real>>, n: nat, m: Score, l: seq<real>, o: seq<real>)
    requires Rows(vs) && n <= |sc| && n <= |vs| && RowState(e, sc, vs, n, m, l, o)
    ensures |l| == 4 && |o| == HeadDim
  {}
}
