/**
 The contiguous cache, one buffer of heads by positions by columns per layer for keys and one for
 values: the reference the paged storage is compared with.
 */
module KvCache {
  import opened Basics
  import opened Tokens
  import opened PagedStore
  import opened PagedBatch

  /** Elements of `n` tokens of one head. */
  function Span(n: nat, hd: nat): nat {
    n * hd
  }

  function TensorSize(nkv: nat, n: nat, hd: nat): nat {
    nkv * (n * hd)
  }

  lemma PlaceParts(n: nat, hd: nat, h: nat, t: nat, d: nat)
    ensures Place(n, hd, h, t, d) == h * Span(n, hd) + Span(t, hd) + d
  {}

  lemma PlaceBound(nkv: nat, n: nat, hd: nat, h: nat, t: nat, d: nat)
    requires h < nkv && t < n && d < hd
    ensures Place(n, hd, h, t, d) < TensorSize(nkv, n, hd)
    ensures h * Span(n, hd) <= Place(n, hd, h, t, d) < (h + 1) * Span(n, hd) <= TensorSize(nkv, n, hd)
  {
    MulMono(t + 1, n, hd);
    MulMono(h + 1, nkv, n * hd);
  }

  /** A place lies in the span of tokens `from` to `from + cnt` of head `i` exactly when its coordinates say so. */
  lemma InSpan(n: nat, hd: nat, i: nat, from: nat, cnt: nat, h: nat, t: nat, d: nat)
    requires from + cnt <= n && t < n && d < hd
    ensures var a := i * Span(n, hd) + Span(from, hd);
      a <= Place(n, hd, h, t, d) < a + Span(cnt, hd) <==> h == i && from <= t < from + cnt
  {
    PlaceParts(n, hd, h, t, d);
    SpanOrder(hd, from, cnt, t, d);
    SpanOrder(hd, 0, n, t, d);
    SpanAdd(hd, from, cnt, n);
    SpanZero(hd);
    hide Place, Span;
    HeadCompare(Span(n, hd), h, i, Span(t, hd) + d, Span(from, hd), Span(cnt, hd));
  }

  lemma SpanAdd(hd: nat, from: nat, cnt: nat, n: nat)
    requires from + cnt <= n
    ensures Span(from, hd) + Span(cnt, hd) == Span(from + cnt, hd) <= Span(n, hd)
  {
    MulMono(from + cnt, n, hd);
  }

  lemma HeadCompare(w: nat, h: nat, i: nat, x: nat, y: nat, z: nat)
    requires x < w && y + z <= w
    ensures i * w + y <= h * w + x < i * w + y + z <==> h == i && y <= x < y + z
  {
    if h < i { MulMono(h + 1, i, w); }
    if i < h { MulMono(i + 1, h, w); }
  }

  lemma SpanOrder(hd: nat, from: nat, cnt: nat, t: nat, d: nat)
    requires d < hd
    ensures Span(from, hd) <= Span(t, hd) + d < Span(from, hd) + Span(cnt, hd) <==> from <= t < from + cnt
  {
    assert Span(from + cnt, hd) == Span(from, hd) + Span(cnt, hd);
    if t < from { MulMono(t + 1, from, hd); } else { MulMono(from, t, hd); }
    if t < from + cnt { MulMono(t + 1, from + cnt, hd); } else { MulMono(from + cnt, t, hd); }
  }

  /** What a write means: tokens `from` on are the first `cnt` tokens of the source, everything else is kept. */
  ghost predicate Replaced(nkv: nat, maxLen: nat, hd: nat, was: seq<int>, now: seq<int>, src: seq<int>, n: nat, from: nat, cnt: nat, heads: nat)
    requires cnt <= n && from + cnt <= maxLen && heads <= nkv
  {
    && |was| == |now| == TensorSize(nkv, maxLen, hd) && |src| == TensorSize(nkv, n, hd)
    && forall h, t, d :: 0 <= h < nkv && 0 <= t < maxLen && 0 <= d < hd ==>
         && Place(maxLen, hd, h, t, d) < |now|
         && (h < heads && from <= t < from + cnt ==>
               Place(n, hd, h, t - from, d) < |src| && now[Place(maxLen, hd, h, t, d)] == src[Place(n, hd, h, t - from, d)])
         && (!(h < heads && from <= t < from + cnt) ==> now[Place(maxLen, hd, h, t, d)] == was[Place(maxLen, hd, h, t, d)])
  }

  lemma ReplacedStart(nkv: nat, maxLen: nat, hd: nat, was: seq<int>, src: seq<int>, n: nat, from: nat, cnt: nat)
    requires cnt <= n && from + cnt <= maxLen && |was| == TensorSize(nkv, maxLen, hd) && |src| == TensorSize(nkv, n, hd)
    ensures Replaced(nkv, maxLen, hd, was, was, src, n, from, cnt, 0)
  {
    forall h, t, d | 0 <= h < nkv && 0 <= t < maxLen && 0 <= d < hd ensures Place(maxLen, hd, h, t, d) < |was| {
      PlaceBound(nkv, maxLen, hd, h, t, d);
    }
  }

  lemma CopyFits(nkv: nat, maxLen: nat, hd: nat, n: nat, from: nat, cnt: nat, i: nat)
    requires cnt <= n && from + cnt <= maxLen && i < nkv
    ensures i * Span(maxLen, hd) + Span(from, hd) + Span(cnt, hd) <= TensorSize(nkv, maxLen, hd)
    ensures i * Span(n, hd) + Span(cnt, hd) <= TensorSize(nkv, n, hd)
  {
    SpanAdd(hd, from, cnt, maxLen);
    SpanAdd(hd, 0, cnt, n);
    SpanZero(hd);
    HeadEnds(nkv, i, Span(maxLen, hd));
    HeadEnds(nkv, i, Span(n, hd));
  }

  lemma HeadEnds(nkv: nat, i: nat, w: nat)
    requires i < nkv
    ensures i * w + w <= nkv * w
  {
    MulMono(i + 1, nkv, w);
  }

  lemma ReplacedStep(nkv: nat, maxLen: nat, hd: nat, was: seq<int>, mid: seq<int>, now: seq<int>, src: seq<int>, n: nat, from: nat, cnt: nat, i: nat)
    requires cnt <= n && from + cnt <= maxLen && i < nkv && Replaced(nkv, maxLen, hd, was, mid, src, n, from, cnt, i)
    requires i * Span(maxLen, hd) + Span(from, hd) + Span(cnt, hd) <= |mid| && i * Span(n, hd) + Span(cnt, hd) <= |src|
    requires now == Spliced(mid, i * Span(maxLen, hd) + Span(from, hd), src, i * Span(n, hd), Span(cnt, hd))
    ensures Replaced(nkv, maxLen, hd, was, now, src, n, from, cnt, i + 1)
  {
    hide Place, TensorSize, Span;
    forall h, t, d | 0 <= h < nkv && 0 <= t < maxLen && 0 <= d < hd
      ensures Place(maxLen, hd, h, t, d) < |now|
      ensures h < i + 1 && from <= t < from + cnt ==>
        Place(n, hd, h, t - from, d) < |src| && now[Place(maxLen, hd, h, t, d)] == src[Place(n, hd, h, t - from, d)]
      ensures !(h < i + 1 && from <= t < from + cnt) ==> now[Place(maxLen, hd, h, t, d)] == was[Place(maxLen, hd, h, t, d)]
    {
      InSpan(maxLen, hd, i, from, cnt, h, t, d);
      if h == i && from <= t < from + cnt {
        PlaceBound(nkv, n, hd, h, t - from, d);
        SamePlace(maxLen, n, hd, i, from, t, d);
      }
    }
  }

  /** The copy keeps a token's offset inside the span. */
  lemma SamePlace(maxLen: nat, n: nat, hd: nat, i: nat, from: nat, t: nat, d: nat)
    requires from <= t
    ensures Place(maxLen, hd, i, t, d) - (i * Span(maxLen, hd) + Span(from, hd)) == Place(n, hd, i, t - from, d) - i * Span(n, hd)
  {
    assert Span(t, hd) == Span(t - from, hd) + Span(from, hd);
  }

  /** `Outside`: a decode that would copy past its one-row source, or to a row before the buffer. */
  datatype Written = Stored | Refused | Outside

  class KVCache {
    const numLayers: nat
    const numKvHeads: nat
    const maxSeqLen: nat
    const headDim: nat
    var cursor: nat
    const kCache: array<seq<int>>
    const vCache: array<seq<int>>

    ghost predicate Valid()
      reads this, kCache, vCache
    {
      && kCache.Length == vCache.Length == numLayers && kCache != vCache && cursor <= maxSeqLen
      && forall l :: 0 <= l < numLayers ==>
           |kCache[l]| == TensorSize(numKvHeads, maxSeqLen, headDim) == |vCache[l]|
    }

    constructor (numLayers: nat, numKvHeads: nat, maxSeqLen: nat, headDim: nat)
      ensures Valid() && cursor == 0 && this.numLayers == numLayers && this.numKvHeads == numKvHeads
      ensures this.maxSeqLen == maxSeqLen && this.headDim == headDim && fresh(kCache) && fresh(vCache)
    {
      this.numLayers := numLayers;
      this.numKvHeads := numKvHeads;
      this.maxSeqLen := maxSeqLen;
      this.headDim := headDim;
      cursor := 0;
      var zero := seq(TensorSize(numKvHeads, maxSeqLen, headDim), _ => 0);
      kCache := new seq<int>[numLayers](_ => zero);
      vCache := new seq<int>[numLayers](_ => zero);
    }

    /** Head by head, `cnt` tokens of the source go to position `from`. */
    method CopyHeads(dst: seq<int>, src: seq<int>, n: nat, from: nat, cnt: nat) returns (now: seq<int>)
      requires cnt <= n && from + cnt <= maxSeqLen
      requires |dst| == TensorSize(numKvHeads, maxSeqLen, headDim) && |src| == TensorSize(numKvHeads, n, headDim)
      ensures Replaced(numKvHeads, maxSeqLen, headDim, dst, now, src, n, from, cnt, numKvHeads)
    {
      hide Replaced, TensorSize, Span;
      now := dst;
      ReplacedStart(numKvHeads, maxSeqLen, headDim, dst, src, n, from, cnt);
      var i := 0;
      while i < numKvHeads
        invariant 0 <= i <= numKvHeads && |now| == |dst|
        invariant Replaced(numKvHeads, maxSeqLen, headDim, dst, now, src, n, from, cnt, i)
      {
        CopyFits(numKvHeads, maxSeqLen, headDim, n, from, cnt, i);
        ghost var mid := now;
        now := Spliced(now, i * Span(maxSeqLen, headDim) + Span(from, headDim), src, i * Span(n, headDim), Span(cnt, headDim));
        ReplacedStep(numKvHeads, maxSeqLen, headDim, dst, mid, now, src, n, from, cnt, i);
        i := i + 1;
      }
    }

    /**
     `write`. A prefill replaces positions 0 to `n`; a decode moves the cursor at layer 0 only and
     puts the first token given at the position before it.
     */
    method Write(layer: int, ks: seq<int>, vs: seq<int>, n: nat, isDecode: bool) returns (w: Written)
      requires Valid() && |ks| == TensorSize(numKvHeads, n, headDim) == |vs|
      modifies this, kCache, vCache
      ensures w != Outside ==> Valid()
      ensures w == Refused <==> !(0 <= layer < numLayers) || n >= maxSeqLen || (isDecode && layer == 0 && old(cursor) >= maxSeqLen)
      ensures w == Outside <==> w != Refused && isDecode && (n == 0 || (layer != 0 && old(cursor) == 0))
      ensures w == Refused ==> cursor == old(cursor) && kCache[..] == old(kCache[..]) && vCache[..] == old(vCache[..])
      ensures w == Stored ==> cursor == if !isDecode then n else if layer == 0 then old(cursor) + 1 else old(cursor)
      ensures w == Stored ==>
        var (from, cnt) := if isDecode then (cursor - 1, 1) else (0, n);
        && from + cnt <= maxSeqLen
        && Replaced(numKvHeads, maxSeqLen, headDim, old(kCache[..])[layer], kCache[layer], ks, n, from, cnt, numKvHeads)
        && Replaced(numKvHeads, maxSeqLen, headDim, old(vCache[..])[layer], vCache[layer], vs, n, from, cnt, numKvHeads)
      ensures w == Stored ==> forall l :: 0 <= l < numLayers && l != layer ==> kCache[l] == old(kCache[l]) && vCache[l] == old(vCache[l])
    {
      hide Replaced, TensorSize;
      if layer < 0 || layer >= numLayers {
        return Refused;
      }
      if n >= maxSeqLen {
        return Refused;
      }
      var from, cnt := 0, n;
      if isDecode {
        if layer == 0 {
          if cursor >= maxSeqLen {
            return Refused;
          }
          cursor := cursor + 1;
        }
        if n == 0 || cursor == 0 {
          return Outside;
        }
        from, cnt := cursor - 1, 1;
      } else {
        cursor := n;
      }
      var k := CopyHeads(kCache[layer], ks, n, from, cnt);
      var v := CopyHeads(vCache[layer], vs, n, from, cnt);
      ReplacedSize(numKvHeads, maxSeqLen, headDim, kCache[layer], k, ks, n, from, cnt, numKvHeads);
      ReplacedSize(numKvHeads, maxSeqLen, headDim, vCache[layer], v, vs, n, from, cnt, numKvHeads);
      kCache[layer] := k;
      vCache[layer] := v;
      w := Stored;
    }

    /** `k_view` and `v_view` of one layer's buffer: the positions before the cursor, packed. */
    method View(buffer: seq<int>) returns (view: seq<int>)
      requires Valid() && |buffer| == TensorSize(numKvHeads, maxSeqLen, headDim)
      ensures |view| == TensorSize(numKvHeads, cursor, headDim)
      ensures forall h, t, d :: 0 <= h < numKvHeads && 0 <= t < cursor && 0 <= d < headDim ==>
        && Place(cursor, headDim, h, t, d) < |view| && Place(maxSeqLen, headDim, h, t, d) < |buffer|
        && view[Place(cursor, headDim, h, t, d)] == buffer[Place(maxSeqLen, headDim, h, t, d)]
    {
      hide TensorSize, Span, Place;
      view := seq(TensorSize(numKvHeads, cursor, headDim), _ => 0);
      var i := 0;
      while i < numKvHeads
        invariant 0 <= i <= numKvHeads && |view| == TensorSize(numKvHeads, cursor, headDim)
        invariant Packed(buffer, view, i)
      {
        CopyFits(numKvHeads, cursor, headDim, maxSeqLen, 0, cursor, i);
        SpanZero(headDim);
        ghost var mid := view;
        view := Spliced(view, i * Span(cursor, headDim), buffer, i * Span(maxSeqLen, headDim), Span(cursor, headDim));
        PackedStep(buffer, mid, view, i);
        i := i + 1;
      }
    }

    ghost predicate Packed(buffer: seq<int>, view: seq<int>, heads: nat)
      reads this
    {
      forall h, t, d :: 0 <= h < heads && 0 <= t < cursor && 0 <= d < headDim ==>
        && Place(cursor, headDim, h, t, d) < |view| && Place(maxSeqLen, headDim, h, t, d) < |buffer|
        && view[Place(cursor, headDim, h, t, d)] == buffer[Place(maxSeqLen, headDim, h, t, d)]
    }

    lemma PackedStep(buffer: seq<int>, mid: seq<int>, view: seq<int>, i: nat)
      requires cursor <= maxSeqLen && i < numKvHeads && Packed(buffer, mid, i)
      requires |buffer| == TensorSize(numKvHeads, maxSeqLen, headDim) && |mid| == TensorSize(numKvHeads, cursor, headDim)
      requires i * Span(cursor, headDim) + Span(cursor, headDim) <= |mid|
      requires i * Span(maxSeqLen, headDim) + Span(cursor, headDim) <= |buffer|
      requires view == Spliced(mid, i * Span(cursor, headDim), buffer, i * Span(maxSeqLen, headDim), Span(cursor, headDim))
      ensures Packed(buffer, view, i + 1)
    {
      hide TensorSize, Span, Place;
      SpanZero(headDim);
      forall h, t, d | 0 <= h < i + 1 && 0 <= t < cursor && 0 <= d < headDim
        ensures Place(cursor, headDim, h, t, d) < |view| && Place(maxSeqLen, headDim, h, t, d) < |buffer|
        ensures view[Place(cursor, headDim, h, t, d)] == buffer[Place(maxSeqLen, headDim, h, t, d)]
      {
        PlaceBound(numKvHeads, cursor, headDim, h, t, d);
        PlaceBound(numKvHeads, maxSeqLen, headDim, h, t, d);
        InSpan(cursor, headDim, i, 0, cursor, h, t, d);
        SamePlace(cursor, maxSeqLen, headDim, i, 0, t, d);
      }
    }
  }

  lemma SpanZero(hd: nat)
    ensures Span(0, hd) == 0
  {}

  lemma ReplacedSize(nkv: nat, maxLen: nat, hd: nat, was: seq<int>, now: seq<int>, src: seq<int>, n: nat, from: nat, cnt: nat, heads: nat)
    requires cnt <= n && from + cnt <= maxLen && heads <= nkv && Replaced(nkv, maxLen, hd, was, now, src, n, from, cnt, heads)
    ensures |now| == |was|
  {}

  // ---------------------------------------------------------------- against the paged storage

  /** One layer's buffers hold these rows at positions 0, 1, ... */
  ghost predicate BufferHolds(nkv: nat, maxLen: nat, hd: nat, buffer: seq<int>, kind: nat, rows: seq<TokenRow>) {
    && |buffer| == TensorSize(nkv, maxLen, hd) && |rows| <= maxLen
    && forall h, p, d :: 0 <= h < nkv && 0 <= p < |rows| && 0 <= d < hd ==>
         Place(maxLen, hd, h, p, d) < |buffer| && buffer[Place(maxLen, hd, h, p, d)] == rows[p].at(kind, h, d)
  }

  /** A write of the tokens that the batch holds for one sequence appends the same rows the paged scatter does. */
  lemma BufferAppends(g: Geometry, maxLen: nat, was: seq<int>, now: seq<int>, kind: nat, src: seq<int>, n: nat, old': seq<TokenRow>, new': seq<TokenRow>)
    requires kind < 2 && |old'| + n <= maxLen && |new'| == n
    requires BufferHolds(g.nkv, maxLen, g.hd, was, kind, old')
    requires Replaced(g.nkv, maxLen, g.hd, was, now, src, n, |old'|, n, g.nkv)
    requires forall h, i, d :: 0 <= h < g.nkv && 0 <= i < n && 0 <= d < g.hd ==>
      Place(n, g.hd, h, i, d) < |src| && src[Place(n, g.hd, h, i, d)] == new'[i].at(kind, h, d)
    ensures BufferHolds(g.nkv, maxLen, g.hd, now, kind, old' + new')
  {
    hide Place, TensorSize;
    forall h, p, d | 0 <= h < g.nkv && 0 <= p < |old' + new'| && 0 <= d < g.hd
      ensures Place(maxLen, g.hd, h, p, d) < |now| && now[Place(maxLen, g.hd, h, p, d)] == (old' + new')[p].at(kind, h, d)
    {
      if p >= |old'| {
        var i := p - |old'|;
        assert src[Place(n, g.hd, h, i, d)] == new'[i].at(kind, h, d);
      }
    }
  }
}
