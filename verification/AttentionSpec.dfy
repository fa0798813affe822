/**
 Attention over exact reals: the exponential is any positive function turning sums into products,
 and the mask sentinel is a separate value below every score. One column of the output is the
 average of the values weighted by the exponentials of the scores.
 */
module AttentionSpec {
  /** A score, or the sentinel of a masked position. */
  datatype Score = NegInf | Fin(x: real)

  ghost predicate IsExp(e: real -> real) {
    && (forall a, b :: e(a + b) == e(a) * e(b))
    && (forall a :: e(a) > 0.0)
  }

  ghost predicate IsLog(e: real -> real, ln: real -> real) {
    forall x :: x > 0.0 ==> e(ln(x)) == x
  }

  lemma ExpPos(e: real -> real, a: real)
    requires IsExp(e)
    ensures e(a) > 0.0
  {}

  lemma ExpAdd(e: real -> real, a: real, b: real)
    requires IsExp(e)
    ensures e(a + b) == e(a) * e(b)
  {}

  /** Shifting by the running maximum cancels. */
  lemma ExpShift(e: real -> real, a: real, b: real)
    requires IsExp(e)
    ensures e(a - b) * e(b) == e(a)
  {
    ExpAdd(e, a - b, b);
    assert a - b + b == a;
  }

  predicate Below(a: Score, b: Score) {
    a.NegInf? || (b.Fin? && a.x <= b.x)
  }

  function Max(a: Score, b: Score): (r: Score)
    ensures Below(a, r) && Below(b, r) && (r == a || r == b)
  {
    if a.NegInf? || (b.Fin? && a.x <= b.x) then b else a
  }

  /**
   `exp(a - m)` for `a` below `m`. Two sentinels differ by zero, so the result is one there; the
   sentinel minus a score underflows to zero.
   */
  function Scale(e: real -> real, a: Score, m: Score): real
    requires Below(a, m)
  {
    if m.NegInf? then 1.0 else if a.NegInf? then 0.0 else e(a.x - m.x)
  }

  /** The weight of a score; masked positions have none. */
  function Weight(e: real -> real, s: Score): real {
    if s.NegInf? then 0.0 else e(s.x)
  }

  // ---------------------------------------------------------------- the definition

  /** Sum of the weights. */
  function Den(e: real -> real, s: seq<Score>): real {
    if s == [] then 0.0 else Den(e, s[..|s| - 1]) + Weight(e, s[|s| - 1])
  }

  /** Sum of the weighted values. */
  function Num(e: real -> real, s: seq<Score>, v: seq<real>): real
    requires |s| == |v|
  {
    if s == [] then 0.0 else Num(e, s[..|s| - 1], v[..|s| - 1]) + Weight(e, s[|s| - 1]) * v[|s| - 1]
  }

  /** Over the first `n` scores. */
  function DenTo(e: real -> real, sc: seq<real>, n: nat): real
    requires n <= |sc|
  {
    if n == 0 then 0.0 else DenTo(e, sc, n - 1) + e(sc[n - 1])
  }

  function NumTo(e: real -> real, sc: seq<real>, v: seq<real>, n: nat): real
    requires n <= |sc| && n <= |v|
  {
    if n == 0 then 0.0 else NumTo(e, sc, v, n - 1) + e(sc[n - 1]) * v[n - 1]
  }

  /** The softmax average of the first `n` values. */
  function Average(e: real -> real, sc: seq<real>, v: seq<real>, n: nat): real
    requires IsExp(e) && 0 < n <= |sc| && n <= |v|
  {
    DenPositive(e, sc, n);
    NumTo(e, sc, v, n) / DenTo(e, sc, n)
  }

  lemma {:induction false} DenPositive(e: real -> real, sc: seq<real>, n: nat)
    requires IsExp(e) && n <= |sc|
    ensures DenTo(e, sc, n) >= 0.0 && (n > 0 ==> DenTo(e, sc, n) > 0.0)
  {
    if n > 0 {
      DenPositive(e, sc, n - 1);
      ExpPos(e, sc[n - 1]);
    }
  }

  // ---------------------------------------------------------------- tiles

  /** The scores of `len` keys from `i` on, those from `n` on masked. */
  function Tile(sc: seq<real>, n: nat, i: nat, len: nat): (r: seq<Score>)
    requires n <= |sc|
    ensures |r| == len
  {
    seq(len, t requires 0 <= t < len => if i + t < n then Fin(sc[i + t]) else NegInf)
  }

  /** The values of the same keys; past the end of `v` zeros are loaded. */
  function TileV(v: seq<real>, i: nat, len: nat): (r: seq<real>)
    ensures |r| == len
  {
    seq(len, t requires 0 <= t < len => if i + t < |v| then v[i + t] else 0.0)
  }

  function Min(a: nat, b: nat): nat {
    if a <= b then a else b
  }

  /** A tile adds exactly the unmasked keys it covers. */
  lemma {:induction false} TileDen(e: real -> real, sc: seq<real>, n: nat, i: nat, len: nat)
    requires n <= |sc|
    ensures DenTo(e, sc, Min(n, i)) + Den(e, Tile(sc, n, i, len)) == DenTo(e, sc, Min(n, i + len))
  {
    if len > 0 {
      assert Tile(sc, n, i, len)[..len - 1] == Tile(sc, n, i, len - 1);
      TileDen(e, sc, n, i, len - 1);
    }
  }

  /** What key `k` adds, if it is not masked. */
  function KeyNum(e: real -> real, sc: seq<real>, v: seq<real>, n: nat, k: nat): real
    requires n <= |sc| && n <= |v|
  {
    if k < n then e(sc[k]) * v[k] else 0.0
  }

  lemma TileNumNext(e: real -> real, sc: seq<real>, v: seq<real>, n: nat, i: nat, len: nat)
    requires n <= |sc| && n <= |v|
    ensures Num(e, Tile(sc, n, i, len + 1), TileV(v, i, len + 1)) == Num(e, Tile(sc, n, i, len), TileV(v, i, len)) + KeyNum(e, sc, v, n, i + len)
  {
    assert Tile(sc, n, i, len + 1)[..len] == Tile(sc, n, i, len);
    assert TileV(v, i, len + 1)[..len] == TileV(v, i, len);
  }

  lemma NumToNext(e: real -> real, sc: seq<real>, v: seq<real>, n: nat, k: nat)
    requires n <= |sc| && n <= |v|
    ensures NumTo(e, sc, v, Min(n, k + 1)) == NumTo(e, sc, v, Min(n, k)) + KeyNum(e, sc, v, n, k)
  {}

  lemma {:induction false} TileNum(e: real -> real, sc: seq<real>, v: seq<real>, n: nat, i: nat, len: nat)
    requires n <= |sc| && n <= |v|
    ensures NumTo(e, sc, v, Min(n, i)) + Num(e, Tile(sc, n, i, len), TileV(v, i, len)) == NumTo(e, sc, v, Min(n, i + len))
  {
    if len > 0 {
      TileNum(e, sc, v, n, i, len - 1);
      TileNumNext(e, sc, v, n, i, len - 1);
      NumToNext(e, sc, v, n, i + len - 1);
      hide Num, NumTo, KeyNum, Tile, TileV;
    }
  }

  // ---------------------------------------------------------------- what a running pair stands for

  /**
   `y`, kept relative to the running maximum `m`, stands for the sum `d`. As long as nothing but
   sentinels was seen the sum is zero and `y` is arbitrary.
   */
  ghost predicate Reps(e: real -> real, m: Score, y: real, d: real) {
    if m.NegInf? then d == 0.0 else y * e(m.x) == d
  }

  /** Raising the maximum and adding a part that is already relative to the new one. */
  lemma RepsRaise(e: real -> real, m: Score, y: real, d: real, m': Score, y': real, d': real)
    requires IsExp(e) && Reps(e, m, y, d) && Reps(e, m', y', d') && Below(m, m')
    ensures Reps(e, m', y' + Scale(e, m, m') * y, d' + d)
  {
    if m'.Fin? && m.Fin? {
      ExpShift(e, m.x, m'.x);
      var k, p, q := e(m.x - m'.x), e(m'.x), e(m.x);
      assert (k * y) * p == y * (k * p);
      assert (y' + k * y) * p == y' * p + (k * y) * p;
    }
  }

  /** The relative weight of one score stands for its weight. */
  lemma RepsOne(e: real -> real, s: Score, m: Score)
    requires IsExp(e) && Below(s, m) && m.Fin?
    ensures Scale(e, s, m) * e(m.x) == Weight(e, s)
  {
    if s.Fin? { ExpShift(e, s.x, m.x); }
  }

  /** Both sums over the same maximum: the quotient no longer depends on it. */
  lemma RepsQuotient(e: real -> real, m: Score, y: real, l: real, num: real, den: real)
    requires IsExp(e) && m.Fin? && Reps(e, m, y, num) && Reps(e, m, l, den) && den > 0.0
    ensures l > 0.0 && y / l == num / den
  {
    ExpPos(e, m.x);
    Quotient(y, l, e(m.x));
  }

  lemma Quotient(y: real, l: real, k: real)
    requires k > 0.0 && l * k > 0.0
    ensures l > 0.0 && y / l == (y * k) / (l * k)
  {
    var q := y / l;
    assert q * l == y;
    assert q * (l * k) == y * k;
  }

  /** The running maximum. */
  function MaxOf(base: Score, s: seq<Score>): (m: Score)
    ensures Below(base, m) && forall j :: 0 <= j < |s| ==> Below(s[j], m)
  {
    if s == [] then base else Max(MaxOf(base, s[..|s| - 1]), s[|s| - 1])
  }

  lemma {:induction false} MaxOfFin(base: Score, s: seq<Score>)
    ensures MaxOf(base, s).Fin? <==> base.Fin? || exists j :: 0 <= j < |s| && s[j].Fin?
  {
    if s != [] {
      MaxOfFin(base, s[..|s| - 1]);
      assert forall j :: 0 <= j < |s| - 1 ==> s[j] == s[..|s| - 1][j];
      if s[|s| - 1].NegInf? && MaxOf(base, s[..|s| - 1]).Fin? && base.NegInf? {
        var j :| 0 <= j < |s[..|s| - 1]| && s[..|s| - 1][j].Fin?;
        assert s[j].Fin?;
      }
    }
  }
}
