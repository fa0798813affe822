/**
 Decoding one token: a warp shares each key row, two columns per lane, and adds up its parts by
 shuffles; the keys are taken in one pass, or cut into splits whose partial results are merged.
 */
module AttentionDecode {
  import opened Tokens
  import opened AttentionSpec
  import opened AttentionKernels

  const Warp: nat := 32

  // ---------------------------------------------------------------- the warp's sum

  function Sum(a: seq<real>): real {
    if a == [] then 0.0 else Sum(a[..|a| - 1]) + a[|a| - 1]
  }

  /** Sum over the lanes whose number is `r` modulo `d`. */
  function SumMod(a: seq<real>, d: nat, r: nat): real
    requires d > 0
  {
    if a == [] then 0.0 else SumMod(a[..|a| - 1], d, r) + if Off(|a| - 1, d) == r then a[|a| - 1] else 0.0
  }

  lemma ModHalf(j: nat, d: nat, r: nat)
    requires 0 < d && r < d
    ensures Off(j, d) == r <==> Off(j, 2 * d) == r || Off(j, 2 * d) == r + d
  {
    hide Off, Blk;
    BlkOff(j, 2 * d);
    HalfAt(j, d, Blk(j, 2 * d), Off(j, 2 * d));
  }

  /** Position `t` of the `q`-th pair of classes. */
  lemma HalfAt(j: nat, d: nat, q: nat, t: nat)
    requires 0 < d && t < 2 * d && j == q * (2 * d) + t
    ensures Off(j, 2 * d) == t
    ensures Off(j, d) == (if t < d then t else t - d) && j / d == if t < d then 2 * q else 2 * q + 1
  {
    DivIs(j, 2 * d, q);
    assert (2 * q) * d == q * (2 * d);
    assert (2 * q + 1) * d == q * (2 * d) + d;
    DivIs(j, d, if t < d then 2 * q else 2 * q + 1);
  }

  /** A class modulo `d` is two classes modulo `2 * d`. */
  lemma {:induction false} SumModSplit(a: seq<real>, d: nat, r: nat)
    requires 0 < d && r < d
    ensures SumMod(a, d, r) == SumMod(a, 2 * d, r) + SumMod(a, 2 * d, r + d)
  {
    if a != [] {
      ModHalf(|a| - 1, d, r);
      SumModSplit(a[..|a| - 1], d, r);
    }
  }

  lemma {:induction false} SumModOne(a: seq<real>)
    ensures SumMod(a, 1, 0) == Sum(a)
  {
    if a != [] { SumModOne(a[..|a| - 1]); }
  }

  lemma {:induction false} SumModOwn(a: seq<real>, n: nat, i: nat)
    requires |a| <= n && i < n
    ensures SumMod(a, n, i) == if i < |a| then a[i] else 0.0
  {
    if a != [] {
      DivIs(|a| - 1, n, 0);
      SumModOwn(a[..|a| - 1], n, i);
    }
  }

  /** The partner of a lane is the other class of its pair. */
  lemma XorAt(i: nat, d: nat, q: nat, t: nat)
    requires 0 < d && t < 2 * d && i == q * (2 * d) + t
    ensures Xor(i, d) == if t < d then i + d else i - d
    ensures Off(Xor(i, d), 2 * d) == if t < d then t + d else t - d
  {
    HalfAt(i, d, q, t);
    var u := if t < d then t + d else t - d;
    HalfAt(q * (2 * d) + u, d, q, u);
    if t < d { EvenHalf(i / d, q); } else { OddHalf(i / d, q); assert i >= d; }
  }

  lemma EvenHalf(x: nat, q: nat)
    requires x == 2 * q
    ensures x % 2 == 0
  {}

  lemma OddHalf(x: nat, q: nat)
    requires x == 2 * q + 1
    ensures x % 2 == 1
  {}

  lemma PairEnds(i: nat, d: nat)
    requires d in {1, 2, 4, 8, 16} && i < Warp
    ensures Blk(i, 2 * d) * (2 * d) + 2 * d <= Warp
  {
    if d == 1 { assert i / 2 * 2 + 2 <= 32; }
    else if d == 2 { assert i / 4 * 4 + 4 <= 32; }
    else if d == 4 { assert i / 8 * 8 + 8 <= 32; }
    else if d == 8 { assert i / 16 * 16 + 16 <= 32; }
    else { assert i / 32 * 32 + 32 <= 32; }
  }

  lemma XorClass(i: nat, d: nat)
    requires d in {1, 2, 4, 8, 16} && i < Warp
    ensures Xor(i, d) < Warp && Off(i, 2 * d) < 2 * d && Off(i, d) < d
    ensures Off(i, 2 * d) == Off(i, d) || Off(i, 2 * d) == Off(i, d) + d
    ensures Off(Xor(i, d), 2 * d) == if Off(i, 2 * d) == Off(i, d) then Off(i, d) + d else Off(i, d)
  {
    PairEnds(i, d);
    BlkOff(i, 2 * d);
    var q, t := Blk(i, 2 * d), Off(i, 2 * d);
    hide Xor;
    PairAt(i, d, q, t);
  }

  lemma PairAt(i: nat, d: nat, q: nat, t: nat)
    requires 0 < d && t < 2 * d && i == q * (2 * d) + t && q * (2 * d) + 2 * d <= Warp
    ensures Xor(i, d) < Warp && Off(i, 2 * d) == t && Off(i, d) == if t < d then t else t - d
    ensures Off(Xor(i, d), 2 * d) == if t < d then t + d else t - d
  {
    XorAt(i, d, q, t);
    HalfAt(i, d, q, t);
  }

  /** The five shuffle rounds: every lane ends with the sum over all lanes. */
  method Butterfly(a: array<real>)
    requires a.Length == Warp
    modifies a
    ensures forall i :: 0 <= i < Warp ==> a[i] == Sum(old(a[..]))
  {
    hide SumMod, Xor;
    ghost var was := a[..];
    forall i | 0 <= i < Warp ensures a[i] == SumMod(was, Warp, Off(i, Warp)) { SumModOwn(was, Warp, i); }
    var d := 16;
    while d > 0
      invariant d in {0, 1, 2, 4, 8, 16}
      invariant forall i :: 0 <= i < Warp ==> a[i] == SumMod(was, if d == 0 then 1 else 2 * d, Off(i, if d == 0 then 1 else 2 * d))
      decreases d
    {
      forall i | 0 <= i < Warp ensures Xor(i, d) < Warp && a[i] + a[Xor(i, d)] == SumMod(was, d, Off(i, d)) {
        XorClass(i, d);
        SumModSplit(was, d, Off(i, d));
      }
      forall i | 0 <= i < Warp {
        a[i] := a[i] + a[Xor(i, d)];
      }
      d := d / 2;
    }
    SumModOne(was);
  }

  /** A lane's two columns of the product. */
  function LanePart(q: seq<real>, k: seq<real>, lane: nat): real
    requires |q| == |k| == HeadDim && lane < Warp
  {
    q[2 * lane] * k[2 * lane] + q[2 * lane + 1] * k[2 * lane + 1]
  }

  lemma {:induction false} LanesDot(q: seq<real>, k: seq<real>, scalar: real, parts: seq<real>, n: nat)
    requires |q| == |k| == HeadDim && n <= |parts| <= Warp
    requires forall i :: 0 <= i < |parts| ==> parts[i] == LanePart(q, k, i) * scalar
    ensures Sum(parts[..n]) == DotTo(q, k, 2 * n) * scalar
  {
    if n > 0 {
      LanesDot(q, k, scalar, parts, n - 1);
      assert parts[..n][..n - 1] == parts[..n - 1];
      var rest, part := DotTo(q, k, 2 * (n - 1)), LanePart(q, k, n - 1);
      assert DotTo(q, k, 2 * n) == DotTo(q, k, 2 * n - 1) + q[2 * n - 1] * k[2 * n - 1];
      assert DotTo(q, k, 2 * n) == rest + part;
      assert (rest + part) * scalar == rest * scalar + part * scalar;
    }
  }

  /** The scaled score of one key: each lane its columns, then the shuffles. */
  method WarpScore(q: seq<real>, k: seq<real>, scalar: real) returns (s: real)
    requires |q| == |k| == HeadDim
    ensures s == DotTo(q, k, HeadDim) * scalar
  {
    var acc := new real[Warp];
    forall lane | 0 <= lane < Warp {
      acc[lane] := LanePart(q, k, lane) * scalar;
    }
    LanesDot(q, k, scalar, acc[..], Warp);
    assert acc[..][..Warp] == acc[..];
    Butterfly(acc);
    s := acc[0];
  }

  // ---------------------------------------------------------------- one stretch of keys

  function FullScores(q: seq<real>, ks: seq<seq<real>>, scalar: real): (sc: seq<real>)
    requires |q| == HeadDim && Rows(ks)
    ensures |sc| == |ks|
  {
    Scores(q, ks, scalar, Full)
  }

  /** The tile's scores; keys from `end` on are masked. */
  method WarpTile(q: seq<real>, ks: seq<seq<real>>, scalar: real, i: nat, end: nat) returns (s: seq<Score>)
    requires |q| == HeadDim && Rows(ks) && end <= |ks|
    ensures s == Tile(FullScores(q, ks, scalar), end, i, Bc)
  {
    s := [];
    var t := 0;
    while t < Bc
      invariant 0 <= t <= Bc && s == Tile(FullScores(q, ks, scalar), end, i, t)
    {
      TileNext(FullScores(q, ks, scalar), end, i, t);
      if i + t < end {
        var x := WarpScore(q, ks[i + t], scalar);
        assert FullScores(q, ks, scalar)[i + t] == x;
        s := s + [Fin(x)];
      } else {
        s := s + [NegInf];
      }
      t := t + 1;
    }
  }

  /** The pair and the columns stand for the keys from `start` to `n`. */
  ghost predicate Stretch(e: real -> real, sc: seq<real>, vs: seq<seq<real>>, start: nat, n: nat, m: Score, l: real, o: seq<real>)
    requires Rows(vs) && start <= n <= |sc| && n <= |vs|
  {
    && |o| == HeadDim && (m.Fin? <==> n > start)
    && Reps(e, m, l, DenTo(e, sc, n) - DenTo(e, sc, start))
    && forall c :: 0 <= c < HeadDim ==> Reps(e, m, o[c], NumTo(e, sc, Column(vs, c), n) - NumTo(e, sc, Column(vs, c), start))
  }

  /** Load past the end of the stretch what is there, or zeros: masked keys have no weight. */
  lemma {:induction false} ValuesIrrelevant(e: real -> real, s: seq<Score>, v: seq<real>, w: seq<real>)
    requires |s| == |v| == |w| && forall j :: 0 <= j < |s| ==> s[j].Fin? ==> v[j] == w[j]
    ensures Num(e, s, v) == Num(e, s, w)
  {
    if s != [] { ValuesIrrelevant(e, s[..|s| - 1], v[..|s| - 1], w[..|s| - 1]); }
  }

  /** The weighted values of a tile of the stretch are those of the values themselves. */
  lemma TileValues(e: real -> real, sc: seq<real>, vs: seq<seq<real>>, end: nat, i: nat, c: nat)
    requires Rows(vs) && c < HeadDim && end <= |sc| == |vs|
    ensures Num(e, Tile(sc, end, i, Bc), Column(Load(vs[..end], i, Bc), c)) == Num(e, Tile(sc, end, i, Bc), TileV(Column(vs, c), i, Bc))
  {
    LoadColumn(vs[..end], i, Bc, c);
    ValuesIrrelevant(e, Tile(sc, end, i, Bc), Column(Load(vs[..end], i, Bc), c), TileV(Column(vs, c), i, Bc));
  }

  lemma StretchStart(e: real -> real, sc: seq<real>, vs: seq<seq<real>>, start: nat)
    requires Rows(vs) && start <= |sc| && start <= |vs|
    ensures Stretch(e, sc, vs, start, start, NegInf, 0.0, Zeros())
  {}

  lemma StretchFacts(e: real -> real, sc: seq<real>, vs: seq<seq<real>>, start: nat, n: nat, m: Score, l: real, o: seq<real>)
    requires Rows(vs) && start <= n <= |sc| && n <= |vs| && Stretch(e, sc, vs, start, n, m, l, o)
    ensures |o| == HeadDim
    ensures Reps(e, m, l, DenTo(e, sc, n) - DenTo(e, sc, start))
    ensures forall c :: 0 <= c < HeadDim ==> Reps(e, m, o[c], NumTo(e, sc, Column(vs, c), n) - NumTo(e, sc, Column(vs, c), start))
  {}

  /** One column across a tile. */
  lemma StretchColumn(e: real -> real, sc: seq<real>, vs: seq<seq<real>>, start: nat, end: nat, i: nat, c: nat,
                      m: Score, y: real, m': Score, part: real, y': real)
    requires IsExp(e) && Rows(vs) && c < HeadDim && start <= i < end <= |sc| == |vs| && Below(m, m') && m'.Fin?
    requires Reps(e, m, y, NumTo(e, sc, Column(vs, c), i) - NumTo(e, sc, Column(vs, c), start))
    requires Reps(e, m', part, Num(e, Tile(sc, end, i, Bc), Column(Load(vs[..end], i, Bc), c)))
    requires y' == y * Scale(e, m, m') + part
    ensures Reps(e, m', y', NumTo(e, sc, Column(vs, c), Min(end, i + Bc)) - NumTo(e, sc, Column(vs, c), start))
  {
    hide IsExp, Num, NumTo, Scale, Tile, TileV, Reps, Load, Column;
    var v := Column(vs, c);
    TileValues(e, sc, vs, end, i, c);
    TileNum(e, sc, v, end, i, Bc);
    var d := Num(e, Tile(sc, end, i, Bc), Column(Load(vs[..end], i, Bc), c));
    RepsRaise(e, m, y, NumTo(e, sc, v, i) - NumTo(e, sc, v, start), m', part, d);
    Commute(y, Scale(e, m, m'), part);
    RepsSame(e, m', part + Scale(e, m, m') * y, d + (NumTo(e, sc, v, i) - NumTo(e, sc, v, start)),
      y', NumTo(e, sc, v, Min(end, i + Bc)) - NumTo(e, sc, v, start));
  }

  lemma StretchSum(e: real -> real, sc: seq<real>, start: nat, end: nat, i: nat, m: Score, l: real, m': Score, part: real, l': real)
    requires IsExp(e) && start <= i < end <= |sc| && Below(m, m')
    requires Reps(e, m, l, DenTo(e, sc, i) - DenTo(e, sc, start))
    requires Reps(e, m', part, Den(e, Tile(sc, end, i, Bc)))
    requires l' == part + Scale(e, m, m') * l
    ensures Reps(e, m', l', DenTo(e, sc, Min(end, i + Bc)) - DenTo(e, sc, start))
  {
    hide IsExp, Den, DenTo, Scale, Tile, Reps;
    TileDen(e, sc, end, i, Bc);
    var d := Den(e, Tile(sc, end, i, Bc));
    RepsRaise(e, m, l, DenTo(e, sc, i) - DenTo(e, sc, start), m', part, d);
    RepsSame(e, m', part + Scale(e, m, m') * l, d + (DenTo(e, sc, i) - DenTo(e, sc, start)),
      l', DenTo(e, sc, Min(end, i + Bc)) - DenTo(e, sc, start));
  }

  lemma FirstKeySeen(sc: seq<real>, end: nat, i: nat, m: Score)
    requires i < end <= |sc|
    ensures MaxOf(m, Tile(sc, end, i, Bc)).Fin?
  {
    MaxOfFin(m, Tile(sc, end, i, Bc));
    assert Tile(sc, end, i, Bc)[0].Fin?;
  }

  /** The loop both decode kernels run, over the keys from `start` to `end`. */
  method StretchLoop(e: real -> real, q: seq<real>, ks: seq<seq<real>>, vs: seq<seq<real>>, scalar: real, start: nat, end: nat)
    returns (m: Score, l: real, o: seq<real>)
    requires IsExp(e) && |q| == HeadDim && Rows(ks) && Rows(vs) && start < end <= |ks| == |vs|
    ensures Stretch(e, FullScores(q, ks, scalar), vs, start, end, m, l, o)
  {
    hide IsExp, FullScores, Stretch, Tile, Reps, Den, Num, DenTo, NumTo, Load, Column, Scale;
    ghost var sc := FullScores(q, ks, scalar);
    m, l, o := NegInf, 0.0, Zeros();
    StretchStart(e, sc, vs, start);
    var i := start;
    while i < end
      invariant start <= i && Stretch(e, sc, vs, start, Min(end, i), m, l, o)
    {
      StretchFacts(e, sc, vs, start, i, m, l, o);
      m, l, o := StretchTile(e, q, ks, vs, scalar, start, end, i, m, l, o);
      i := i + Bc;
    }
  }

  lemma StretchMake(e: real -> real, sc: seq<real>, vs: seq<seq<real>>, start: nat, n: nat, m: Score, l: real, o: seq<real>)
    requires Rows(vs) && start < n <= |sc| && n <= |vs| && |o| == HeadDim && m.Fin?
    requires Reps(e, m, l, DenTo(e, sc, n) - DenTo(e, sc, start))
    requires forall c :: 0 <= c < HeadDim ==> Reps(e, m, o[c], NumTo(e, sc, Column(vs, c), n) - NumTo(e, sc, Column(vs, c), start))
    ensures Stretch(e, sc, vs, start, n, m, l, o)
  {}

  method StretchTile(e: real -> real, q: seq<real>, ks: seq<seq<real>>, vs: seq<seq<real>>, scalar: real, ghost start: nat, end: nat,
                     i: nat, m: Score, l: real, o: seq<real>)
    returns (m': Score, l': real, o': seq<real>)
    requires IsExp(e) && |q| == HeadDim && Rows(ks) && Rows(vs) && start <= i < end <= |ks| == |vs|
    requires Stretch(e, FullScores(q, ks, scalar), vs, start, i, m, l, o)
    ensures Stretch(e, FullScores(q, ks, scalar), vs, start, Min(end, i + Bc), m', l', o')
  {
    hide IsExp, FullScores, Stretch, Tile, Reps, Den, Num, DenTo, NumTo, Load, Column, Scale, MaxOf;
    ghost var sc := FullScores(q, ks, scalar);
    StretchFacts(e, sc, vs, start, i, m, l, o);
    var s := WarpTile(q, ks, scalar, i, end);
    var part;
    m', part := LaneSoftmax(e, m, s);
    FirstKeySeen(sc, end, i, m);
    var ratio := Scale(e, m, m');
    l' := part + ratio * l;
    StretchSum(e, sc, start, end, i, m, l, m', part, l');
    var n := WeightedValues(e, s, m', Load(vs[..end], i, Bc));
    o' := seq(HeadDim, c requires 0 <= c < HeadDim => o[c] * ratio + n[c]);
    forall c | 0 <= c < HeadDim
      ensures Reps(e, m', o'[c], NumTo(e, sc, Column(vs, c), Min(end, i + Bc)) - NumTo(e, sc, Column(vs, c), start))
    {
      StretchColumn(e, sc, vs, start, end, i, c, m, o[c], m', n[c], o'[c]);
    }
    StretchMake(e, sc, vs, start, Min(end, i + Bc), m', l', o');
  }

  // ---------------------------------------------------------------- one pass

  /** Weights and weighted values of the keys from `start` to `n`. */
  function DenIn(e: real -> real, sc: seq<real>, start: nat, n: nat): real
    requires start <= n <= |sc|
  {
    DenTo(e, sc, n) - DenTo(e, sc, start)
  }

  function NumIn(e: real -> real, sc: seq<real>, v: seq<real>, start: nat, n: nat): real
    requires start <= n <= |sc| && n <= |v|
  {
    NumTo(e, sc, v, n) - NumTo(e, sc, v, start)
  }

  lemma {:induction false} DenInPositive(e: real -> real, sc: seq<real>, start: nat, n: nat)
    requires IsExp(e) && start <= n <= |sc|
    ensures DenIn(e, sc, start, n) >= 0.0 && (start < n ==> DenIn(e, sc, start, n) > 0.0)
  {
    if start < n {
      DenInPositive(e, sc, start, n - 1);
      ExpPos(e, sc[n - 1]);
    }
  }

  /** Normalising a stretch. */
  lemma StretchQuotient(e: real -> real, sc: seq<real>, vs: seq<seq<real>>, start: nat, n: nat, m: Score, l: real, o: seq<real>, c: nat)
    requires IsExp(e) && Rows(vs) && start < n <= |sc| && n <= |vs| && Stretch(e, sc, vs, start, n, m, l, o) && c < HeadDim
    ensures l > 0.0 && DenIn(e, sc, start, n) > 0.0
    ensures o[c] / l == NumIn(e, sc, Column(vs, c), start, n) / DenIn(e, sc, start, n)
  {
    hide Reps, IsExp;
    DenInPositive(e, sc, start, n);
    RepsQuotient(e, m, o[c], l, NumIn(e, sc, Column(vs, c), start, n), DenIn(e, sc, start, n));
  }

  /** Divide every column by the sum. */
  method Normalise(e: real -> real, ghost sc: seq<real>, ghost vs: seq<seq<real>>, ghost start: nat, ghost n: nat, ghost m: Score, l: real, o: seq<real>)
    returns (out: seq<real>)
    requires IsExp(e) && Rows(vs) && start < n <= |sc| && n <= |vs| && Stretch(e, sc, vs, start, n, m, l, o)
    ensures |out| == HeadDim && l > 0.0 && DenIn(e, sc, start, n) > 0.0
    ensures forall c :: 0 <= c < HeadDim ==> out[c] == NumIn(e, sc, Column(vs, c), start, n) / DenIn(e, sc, start, n)
  {
    hide IsExp, Stretch, DenIn, NumIn, Column;
    StretchFacts(e, sc, vs, start, n, m, l, o);
    StretchQuotient(e, sc, vs, start, n, m, l, o, 0);
    forall c | 0 <= c < HeadDim ensures o[c] / l == NumIn(e, sc, Column(vs, c), start, n) / DenIn(e, sc, start, n) {
      StretchQuotient(e, sc, vs, start, n, m, l, o, c);
    }
    out := seq(HeadDim, c requires 0 <= c < HeadDim && |o| == HeadDim && l > 0.0 => o[c] / l);
  }

  /** The single-pass kernel: the softmax average over all keys. */
  method DecodeRow(e: real -> real, q: seq<real>, ks: seq<seq<real>>, vs: seq<seq<real>>, scalar: real) returns (out: seq<real>)
    requires IsExp(e) && |q| == HeadDim && Rows(ks) && Rows(vs) && 0 < |ks| == |vs|
    ensures |out| == HeadDim
    ensures forall c :: 0 <= c < HeadDim ==> out[c] == Average(e, FullScores(q, ks, scalar), Column(vs, c), |ks|)
  {
    hide IsExp, FullScores, Stretch, Column, DenIn, NumIn, Average;
    var m, l, o := StretchLoop(e, q, ks, vs, scalar, 0, |ks|);
    out := Normalise(e, FullScores(q, ks, scalar), vs, 0, |ks|, m, l, o);
    forall c | 0 <= c < HeadDim ensures out[c] == Average(e, FullScores(q, ks, scalar), Column(vs, c), |ks|) {
      WholeStretch(e, FullScores(q, ks, scalar), Column(vs, c));
    }
  }

  // ---------------------------------------------------------------- splits

  /** Keys per split: an even share, rounded up to whole tiles. */
  function SplitLen(seqK: nat, numSplits: nat): (len: nat)
    requires numSplits > 0
  {
    CeilDiv(CeilDiv(seqK, numSplits), Bc) * Bc
  }

  function SplitStart(seqK: nat, numSplits: nat, s: nat): nat
    requires numSplits > 0
  {
    s * SplitLen(seqK, numSplits)
  }

  function SplitEnd(seqK: nat, numSplits: nat, s: nat): nat
    requires numSplits > 0
  {
    Min(SplitStart(seqK, numSplits, s) + SplitLen(seqK, numSplits), seqK)
  }

  /** Where the first `s` splits end. */
  function Covered(seqK: nat, numSplits: nat, s: nat): nat
    requires numSplits > 0
  {
    Min(SplitStart(seqK, numSplits, s), seqK)
  }

  /**
   The splits follow each other without gap or overlap, start at 0 and end at the last key; a split
   is empty exactly when it starts at or past the end, and then so are all later ones.
   */
  lemma SplitsPartition(seqK: nat, numSplits: nat, s: nat)
    requires numSplits > 0
    ensures Covered(seqK, numSplits, 0) == 0 && Covered(seqK, numSplits, numSplits) == seqK
    ensures SplitStart(seqK, numSplits, s) < seqK ==>
      SplitStart(seqK, numSplits, s) == Covered(seqK, numSplits, s) < SplitEnd(seqK, numSplits, s) == Covered(seqK, numSplits, s + 1)
    ensures SplitStart(seqK, numSplits, s) >= seqK ==>
      Covered(seqK, numSplits, s) == seqK == Covered(seqK, numSplits, s + 1)
  {
    hide CeilDiv;
    var len := SplitLen(seqK, numSplits);
    SplitLenEnough(seqK, numSplits);
    assert (s + 1) * len == s * len + len;
    assert numSplits * len >= seqK by { MulMono(CeilDiv(seqK, numSplits), len, numSplits); CeilBounds(seqK, numSplits); }
  }

  lemma CoveredBound(seqK: nat, numSplits: nat, s: nat)
    requires numSplits > 0
    ensures Covered(seqK, numSplits, s) <= Covered(seqK, numSplits, s + 1) <= seqK
  {
    MulMono(s, s + 1, SplitLen(seqK, numSplits));
  }

  lemma SplitLenEnough(seqK: nat, numSplits: nat)
    requires numSplits > 0
    ensures SplitLen(seqK, numSplits) >= CeilDiv(seqK, numSplits)
    ensures seqK > 0 ==> SplitLen(seqK, numSplits) > 0
  {
    CeilBounds(CeilDiv(seqK, numSplits), Bc);
    CeilBounds(seqK, numSplits);
    if CeilDiv(seqK, numSplits) == 0 { assert seqK <= 0 * numSplits; }
  }

  /** What a split leaves behind: the logarithm of its weight, and its average; nothing when it is empty. */
  datatype Partial = Partial(lse: Score, o: Unset)
  datatype Unset = Never | Written(value: seq<real>)

  /** The partial stands for the keys from `start` to `n`. */
  ghost predicate PartialOk(e: real -> real, sc: seq<real>, vs: seq<seq<real>>, p: Partial, start: nat, n: nat)
    requires Rows(vs) && start <= n <= |sc| && n <= |vs|
  {
    if start == n then p.lse.NegInf?
    else
      && p.lse.Fin? && p.o.Written? && |p.o.value| == HeadDim
      && e(p.lse.x) == DenIn(e, sc, start, n) > 0.0
      && forall c :: 0 <= c < HeadDim ==> p.o.value[c] * e(p.lse.x) == NumIn(e, sc, Column(vs, c), start, n)
  }

  /** The partial stands for the keys of split `s`. */
  ghost predicate SplitOk(e: real -> real, sc: seq<real>, vs: seq<seq<real>>, p: Partial, numSplits: nat, s: nat)
    requires Rows(vs) && |sc| == |vs| && numSplits > 0
  {
    && Covered(|sc|, numSplits, s) <= Covered(|sc|, numSplits, s + 1) <= |sc|
    && PartialOk(e, sc, vs, p, Covered(|sc|, numSplits, s), Covered(|sc|, numSplits, s + 1))
  }

  /** One split of the split kernel. */
  method SplitPartial(e: real -> real, ln: real -> real, q: seq<real>, ks: seq<seq<real>>, vs: seq<seq<real>>, scalar: real, numSplits: nat, s: nat)
    returns (p: Partial)
    requires IsExp(e) && IsLog(e, ln) && |q| == HeadDim && Rows(ks) && Rows(vs) && 0 < |ks| == |vs| && numSplits > 0
    ensures SplitOk(e, FullScores(q, ks, scalar), vs, p, numSplits, s)
  {
    hide IsExp, IsLog, FullScores, Stretch, Column, DenIn, NumIn, SplitStart, SplitEnd, Covered, SplitLen;
    SplitsPartition(|ks|, numSplits, s);
    CoveredBound(|ks|, numSplits, s);
    var start, end := SplitStart(|ks|, numSplits, s), SplitEnd(|ks|, numSplits, s);
    if start >= |ks| {
      return Partial(NegInf, Never);
    }
    var m, l, o := StretchLoop(e, q, ks, vs, scalar, start, end);
    StretchScore(e, FullScores(q, ks, scalar), vs, start, end, m, l, o);
    var value := Normalise(e, FullScores(q, ks, scalar), vs, start, end, m, l, o);
    p := Partial(Fin(m.x + ln(l)), Written(value));
    PartialMake(e, ln, FullScores(q, ks, scalar), vs, start, end, m, l, o, value);
  }

  lemma StretchScore(e: real -> real, sc: seq<real>, vs: seq<seq<real>>, start: nat, n: nat, m: Score, l: real, o: seq<real>)
    requires Rows(vs) && start < n <= |sc| && n <= |vs| && Stretch(e, sc, vs, start, n, m, l, o)
    ensures m.Fin? && l * e(m.x) == DenIn(e, sc, start, n)
  {}

  lemma PartialMake(e: real -> real, ln: real -> real, sc: seq<real>, vs: seq<seq<real>>, start: nat, n: nat, m: Score, l: real, o: seq<real>, value: seq<real>)
    requires IsExp(e) && IsLog(e, ln) && Rows(vs) && start < n <= |sc| && n <= |vs| && Stretch(e, sc, vs, start, n, m, l, o)
    requires m.Fin? && l > 0.0 && l * e(m.x) == DenIn(e, sc, start, n) > 0.0 && |value| == HeadDim
    requires forall c :: 0 <= c < HeadDim ==> value[c] == NumIn(e, sc, Column(vs, c), start, n) / DenIn(e, sc, start, n)
    ensures PartialOk(e, sc, vs, Partial(Fin(m.x + ln(l)), Written(value)), start, n)
  {
    hide DenIn, NumIn, Column, Stretch;
    assert e(ln(l)) == l;
    ExpAdd(e, m.x, ln(l));
    assert e(m.x + ln(l)) == DenIn(e, sc, start, n);
    forall c | 0 <= c < HeadDim ensures value[c] * e(m.x + ln(l)) == NumIn(e, sc, Column(vs, c), start, n) {
      QuotientTimes(NumIn(e, sc, Column(vs, c), start, n), DenIn(e, sc, start, n));
    }
  }

  lemma QuotientTimes(a: real, b: real)
    requires b > 0.0
    ensures a / b * b == a
  {}

  // ---------------------------------------------------------------- reduce

  /** A part's weighted average, relative to the new maximum, stands for the part's sum. */
  lemma WeightedReps(e: real -> real, lse: real, o: real, num: real, m': Score)
    requires IsExp(e) && m'.Fin? && Below(Fin(lse), m') && o * e(lse) == num
    ensures Reps(e, m', Scale(e, Fin(lse), m') * o, num)
  {
    RepsOne(e, Fin(lse), m');
    hide IsExp, Scale;
    var w, k := Scale(e, Fin(lse), m'), e(m'.x);
    assert (w * o) * k == o * (w * k);
  }

  lemma ReduceColumn(e: real -> real, m: Score, y: real, d: real, lse: real, o: real, num: real, m': Score, y': real)
    requires IsExp(e) && Reps(e, m, y, d) && m' == Max(Fin(lse), m) && o * e(lse) == num
    requires y' == y * Scale(e, m, m') + Scale(e, Fin(lse), m') * o
    ensures Reps(e, m', y', d + num)
  {
    WeightedReps(e, lse, o, num, m');
    hide IsExp, Scale, Reps;
    var w := Scale(e, Fin(lse), m') * o;
    RepsRaise(e, m, y, d, m', w, num);
    Commute(y, Scale(e, m, m'), w);
    RepsSame(e, m', w + Scale(e, m, m') * y, num + d, y', d + num);
  }

  /** One split in the reduction. */
  lemma ReduceStep(e: real -> real, sc: seq<real>, vs: seq<seq<real>>, start: nat, n: nat, p: Partial,
                   eMax: Score, eSum: real, acc: seq<real>, max': Score, sum': real, acc': seq<real>)
    requires IsExp(e) && Rows(vs) && start < n <= |sc| && n <= |vs|
    requires Stretch(e, sc, vs, 0, start, eMax, eSum, acc) && PartialOk(e, sc, vs, p, start, n)
    requires max' == Max(p.lse, eMax) && |acc'| == HeadDim
    requires sum' == eSum * Scale(e, eMax, max') + Scale(e, p.lse, max')
    requires forall c :: 0 <= c < HeadDim ==> acc'[c] == acc[c] * Scale(e, eMax, max') + Scale(e, p.lse, max') * p.o.value[c]
    ensures Stretch(e, sc, vs, 0, n, max', sum', acc')
  {
    hide IsExp, Reps, Scale, Column;
    StretchFacts(e, sc, vs, 0, start, eMax, eSum, acc);
    ReduceColumn(e, eMax, eSum, DenIn(e, sc, 0, start), p.lse.x, 1.0, DenIn(e, sc, start, n), max', sum');
    forall c | 0 <= c < HeadDim
      ensures Reps(e, max', acc'[c], NumTo(e, sc, Column(vs, c), n) - NumTo(e, sc, Column(vs, c), 0))
    {
      var v := Column(vs, c);
      ReduceColumn(e, eMax, acc[c], NumIn(e, sc, v, 0, start), p.lse.x, p.o.value[c], NumIn(e, sc, v, start, n), max', acc'[c]);
    }
    StretchMake(e, sc, vs, 0, n, max', sum', acc');
  }

  /** A split that is not empty: its logarithm and its average enter with their weight. */
  method ReduceOne(e: real -> real, p: Partial, eMax: Score, eSum: real, acc: seq<real>,
                   ghost sc: seq<real>, ghost vs: seq<seq<real>>, ghost start: nat, ghost n: nat)
    returns (nMax: Score, eSum': real, acc': seq<real>)
    requires IsExp(e) && Rows(vs) && start <= n <= |sc| == |vs| && p.lse.Fin?
    requires Stretch(e, sc, vs, 0, start, eMax, eSum, acc) && PartialOk(e, sc, vs, p, start, n)
    ensures Stretch(e, sc, vs, 0, n, nMax, eSum', acc')
  {
    hide IsExp, Stretch, Column, DenIn, NumIn, Scale;
    StretchFacts(e, sc, vs, 0, start, eMax, eSum, acc);
    nMax := Max(p.lse, eMax);
    var oldScale := Scale(e, eMax, nMax);
    var w := Scale(e, p.lse, nMax);
    var mid := p.o.value;
    acc' := seq(HeadDim, k requires 0 <= k < HeadDim && |acc| == |mid| == HeadDim => acc[k] * oldScale + w * mid[k]);
    eSum' := eSum * oldScale + w;
    ReduceStep(e, sc, vs, start, n, p, eMax, eSum, acc, nMax, eSum', acc');
  }

  /** An empty split adds no keys. */
  lemma EmptySplit(e: real -> real, sc: seq<real>, vs: seq<seq<real>>, p: Partial, numSplits: nat, s: nat)
    requires Rows(vs) && |sc| == |vs| && numSplits > 0 && SplitOk(e, sc, vs, p, numSplits, s) && p.lse.NegInf?
    ensures Covered(|sc|, numSplits, s) == Covered(|sc|, numSplits, s + 1)
  {}

  /** The reduce kernel. An empty split is skipped before its average would be read. */
  method Reduce(e: real -> real, mids: seq<Partial>, ghost sc: seq<real>, ghost vs: seq<seq<real>>, ghost numSplits: nat)
    returns (out: seq<real>)
    requires IsExp(e) && Rows(vs) && 0 < |sc| == |vs| && |mids| == numSplits > 0
    requires forall s :: 0 <= s < numSplits ==> SplitOk(e, sc, vs, mids[s], numSplits, s)
    ensures |out| == HeadDim
    ensures forall c :: 0 <= c < HeadDim ==> out[c] == Average(e, sc, Column(vs, c), |sc|)
  {
    hide IsExp, Stretch, Column, DenIn, NumIn, Covered, Scale, PartialOk;
    SplitsPartition(|sc|, numSplits, 0);
    var eMax, eSum, acc := NegInf, 0.0, Zeros();
    StretchStart(e, sc, vs, 0);
    var s := 0;
    while s < |mids|
      invariant 0 <= s <= |mids| && Covered(|sc|, numSplits, s) <= |sc|
      invariant Stretch(e, sc, vs, 0, Covered(|sc|, numSplits, s), eMax, eSum, acc)
    {
      if mids[s].lse.NegInf? {
        EmptySplit(e, sc, vs, mids[s], numSplits, s);
        s := s + 1;
        continue;
      }
      eMax, eSum, acc := ReduceOne(e, mids[s], eMax, eSum, acc, sc, vs, Covered(|sc|, numSplits, s), Covered(|sc|, numSplits, s + 1));
      s := s + 1;
    }
    out := Normalise(e, sc, vs, 0, |sc|, eMax, eSum, acc);
    forall c | 0 <= c < HeadDim ensures out[c] == Average(e, sc, Column(vs, c), |sc|) {
      WholeStretch(e, sc, Column(vs, c));
    }
  }

  lemma WholeStretch(e: real -> real, sc: seq<real>, v: seq<real>)
    requires IsExp(e) && 0 < |sc| == |v|
    ensures DenIn(e, sc, 0, |sc|) > 0.0 && NumIn(e, sc, v, 0, |sc|) / DenIn(e, sc, 0, |sc|) == Average(e, sc, v, |sc|)
  {
    DenPositive(e, sc, |sc|);
  }

  /** Split decoding gives exactly what the single pass gives, for any number of splits. */
  method SplitDecodeRow(e: real -> real, ln: real -> real, q: seq<real>, ks: seq<seq<real>>, vs: seq<seq<real>>, scalar: real, numSplits: nat)
    returns (out: seq<real>)
    requires IsExp(e) && IsLog(e, ln) && |q| == HeadDim && Rows(ks) && Rows(vs) && 0 < |ks| == |vs| && numSplits > 0
    ensures |out| == HeadDim
    ensures forall c :: 0 <= c < HeadDim ==> out[c] == Average(e, FullScores(q, ks, scalar), Column(vs, c), |ks|)
  {
    hide IsExp, IsLog, FullScores, SplitOk, Covered, Column;
    ghost var sc := FullScores(q, ks, scalar);
    var mids: seq<Partial> := [];
    var s := 0;
    while s < numSplits
      invariant 0 <= s <= numSplits && |mids| == s
      invariant forall t :: 0 <= t < s ==> SplitOk(e, sc, vs, mids[t], numSplits, t)
    {
      var p := SplitPartial(e, ln, q, ks, vs, scalar, numSplits, s);
      mids := mids + [p];
      s := s + 1;
    }
    out := Reduce(e, mids, sc, vs, numSplits);
  }
}
