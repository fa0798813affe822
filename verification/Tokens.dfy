/**
 Token sequences cut into whole blocks, and the block arithmetic of the cache: position `p`
 lives in logical block `p / bs` at offset `p % bs`, and `n` tokens need `CeilDiv(n, bs)` blocks.
 */
module Tokens {
  type Token = int

  function CeilDiv(n: nat, bs: nat): nat
    requires bs > 0
  {
    (n + bs - 1) / bs
  }

  /** Logical block and offset of a position. */
  function Blk(p: nat, bs: nat): nat
    requires bs > 0
  {
    p / bs
  }

  function Off(p: nat, bs: nat): (o: nat)
    requires bs > 0
    ensures o < bs
  {
    p % bs
  }

  lemma BlkMono(p: nat, q: nat, bs: nat)
    requires bs > 0 && p <= q
    ensures Blk(p, bs) <= Blk(q, bs)
  {
    DivBounds(p, bs);
    DivBounds(q, bs);
    MulCancel(p / bs, q / bs, bs);
  }

  lemma MulCancel(a: nat, b: nat, bs: nat)
    requires a * bs < b * bs + bs
    ensures a <= b
  {
    if b < a { MulMono(b + 1, a, bs); }
  }

  /** Distinct positions differ in block or offset. */
  lemma BlkOffDistinct(p: nat, q: nat, bs: nat)
    requires bs > 0 && Blk(p, bs) == Blk(q, bs) && Off(p, bs) == Off(q, bs)
    ensures p == q
  {
    DivBounds(p, bs);
    DivBounds(q, bs);
  }

  /** Position of block `j` at offset `o`. */
  lemma BlkOffOf(j: nat, o: nat, bs: nat)
    requires bs > 0 && o < bs
    ensures Blk(j * bs + o, bs) == j && Off(j * bs + o, bs) == o
  {
    DivIs(j * bs + o, bs, j);
  }

  lemma BlkOff(p: nat, bs: nat)
    requires bs > 0
    ensures p == Blk(p, bs) * bs + Off(p, bs)
  {
    DivBounds(p, bs);
  }

  /** A position below `j * bs` is in one of the first `j` blocks. */
  lemma BlkBelow(p: nat, j: nat, bs: nat)
    requires bs > 0 && p < j * bs
    ensures Blk(p, bs) < j
  {
    DivBounds(p, bs);
    if p / bs >= j { MulMono(j, p / bs, bs); }
  }

  lemma BlkFrom(p: nat, j: nat, bs: nat)
    requires bs > 0 && j * bs <= p
    ensures j <= Blk(p, bs)
  {
    DivBounds(p, bs);
    if p / bs < j { MulMono(p / bs + 1, j, bs); }
  }

  lemma DivBounds(n: nat, bs: nat)
    requires bs > 0
    ensures n / bs * bs <= n < n / bs * bs + bs
    ensures n % bs == n - n / bs * bs
  {}

  lemma MulMono(a: nat, b: nat, bs: nat)
    requires a <= b
    ensures a * bs <= b * bs
  {}

  /** `q` is the quotient as soon as `n` lies in its block. */
  lemma DivIs(n: nat, bs: nat, q: nat)
    requires bs > 0 && q * bs <= n < q * bs + bs
    ensures n / bs == q && n % bs == n - q * bs
  {
    DivBounds(n, bs);
    if n / bs < q { MulMono(n / bs + 1, q, bs); }
    if n / bs > q { MulMono(q + 1, n / bs, bs); }
  }

  lemma CeilBounds(n: nat, bs: nat)
    requires bs > 0
    ensures n <= CeilDiv(n, bs) * bs < n + bs
  {
    DivBounds(n + bs - 1, bs);
  }

  lemma CeilIs(n: nat, bs: nat, q: nat)
    requires bs > 0 && n <= q * bs < n + bs
    ensures CeilDiv(n, bs) == q
  {
    DivIs(n + bs - 1, bs, q);
  }

  lemma CeilMono(m: nat, n: nat, bs: nat)
    requires bs > 0 && m <= n
    ensures CeilDiv(m, bs) <= CeilDiv(n, bs)
  {
    CeilBounds(m, bs);
    CeilBounds(n, bs);
    if CeilDiv(m, bs) > CeilDiv(n, bs) { MulMono(CeilDiv(n, bs) + 1, CeilDiv(m, bs), bs); }
  }

  /** Removing `a` whole blocks from the front lowers the block count by `a`. */
  lemma CeilShift(n: nat, a: nat, bs: nat)
    requires bs > 0 && a * bs <= n
    ensures a <= CeilDiv(n, bs) && CeilDiv(n - a * bs, bs) == CeilDiv(n, bs) - a
  {
    CeilBounds(n, bs);
    if CeilDiv(n, bs) < a { MulMono(CeilDiv(n, bs) + 1, a, bs); }
    CeilIs(n - a * bs, bs, CeilDiv(n, bs) - a);
  }

  /** The block of a position below `n` is one of the first `CeilDiv(n, bs)`. */
  lemma PosInTable(p: nat, n: nat, bs: nat)
    requires bs > 0 && p < n
    ensures p / bs < CeilDiv(n, bs)
  {
    CeilBounds(n, bs);
    DivBounds(p, bs);
    if p / bs >= CeilDiv(n, bs) { MulMono(CeilDiv(n, bs), p / bs, bs); }
  }

  /** One more token needs a new block exactly when the old count filled its blocks. */
  lemma CeilNext(n: nat, bs: nat)
    requires bs >= 2
    ensures CeilDiv(n + 1, bs) == CeilDiv(n, bs) + if (n + 1) % bs == 1 then 1 else 0
  {
    var q := (n + 1) / bs;
    var r := (n + 1) % bs;
    DivBounds(n + 1, bs);
    CeilNextAt(n, bs, q, r);
  }

  lemma CeilNextAt(n: nat, bs: nat, q: nat, r: nat)
    requires bs >= 2 && n + 1 == q * bs + r && r < bs
    ensures CeilDiv(n + 1, bs) == CeilDiv(n, bs) + if r == 1 then 1 else 0
  {
    assert (q + 1) * bs == q * bs + bs;
    CeilIs(n + 1, bs, if r == 0 then q else q + 1);
    CeilIs(n, bs, if r <= 1 then q else q + 1);
  }

  // ---------------------------------------------------------------- whole blocks of a sequence

  /** The whole blocks of `s`, in order; the residual tokens do not take part. */
  function Chunks(s: seq<Token>, bs: nat): (r: seq<seq<Token>>)
    requires bs > 0
    ensures |r| == |s| / bs
  {
    seq(|s| / bs, i requires 0 <= i < |s| / bs => ChunkAt(s, bs, i))
  }

  function ChunkAt(s: seq<Token>, bs: nat, i: nat): (r: seq<Token>)
    requires bs > 0 && i < |s| / bs
    ensures |r| == bs
  {
    DivBounds(|s|, bs);
    MulMono(i + 1, |s| / bs, bs);
    s[i * bs..i * bs + bs]
  }

  lemma DivMono(k: nat, n: nat, bs: nat)
    requires bs > 0 && k <= n
    ensures k / bs <= n / bs
  {
    DivBounds(k, bs);
    DivBounds(n, bs);
    MulCancel(k / bs, n / bs, bs);
  }

  /** Block `i` of a prefix lies inside it. */
  lemma ChunkInside(k: nat, bs: nat, i: nat)
    requires bs > 0 && i < k / bs
    ensures 0 <= i * bs && i * bs + bs <= k
  {
    DivBounds(k, bs);
    MulMono(i + 1, k / bs, bs);
  }

  lemma SliceOfPrefix<T>(s: seq<T>, k: nat, a: nat, b: nat)
    requires a <= b <= k <= |s|
    ensures s[..k][a..b] == s[a..b]
  {}

  lemma ChunkOfPrefix(s: seq<Token>, k: nat, bs: nat, i: nat)
    requires bs > 0 && k <= |s| && i < k / bs && i < |s| / bs
    ensures ChunkAt(s[..k], bs, i) == ChunkAt(s, bs, i)
  {
    ChunkInside(k, bs, i);
    SliceOfPrefix(s, k, i * bs, i * bs + bs);
  }

  lemma ChunksPrefix(s: seq<Token>, k: nat, bs: nat)
    requires bs > 0 && k <= |s|
    ensures k / bs <= |s| / bs
    ensures Chunks(s[..k], bs) == Chunks(s, bs)[..k / bs]
  {
    hide ChunkAt;
    DivMono(k, |s|, bs);
    forall i | 0 <= i < k / bs ensures Chunks(s[..k], bs)[i] == Chunks(s, bs)[i] {
      ChunkOfPrefix(s, k, bs, i);
    }
  }

  /** Concatenation of a chunk sequence. */
  function Flat(x: seq<seq<Token>>): seq<Token> {
    if x == [] then [] else Flat(x[..|x| - 1]) + x[|x| - 1]
  }

  lemma BlocksFit(n: nat, j: nat, bs: nat)
    requires bs > 0 && j <= n / bs
    ensures j * bs <= n
  {
    DivBounds(n, bs);
    MulMono(j, n / bs, bs);
  }

  lemma NextBlock(j: nat, bs: nat)
    requires j > 0
    ensures j * bs == (j - 1) * bs + bs
  {}

  /** The first `j` whole blocks of `s`, glued together, are the first `j * bs` tokens. */
  lemma {:induction false} FlatChunks(s: seq<Token>, j: nat, bs: nat)
    requires bs > 0 && j <= |s| / bs
    ensures j * bs <= |s|
    ensures Flat(Chunks(s, bs)[..j]) == s[..j * bs]
  {
    BlocksFit(|s|, j, bs);
    if j > 0 {
      FlatChunks(s, j - 1, bs);
      ChunkInside(|s|, bs, j - 1);
      var x, w := Chunks(s, bs)[..j], (j - 1) * bs;
      NextBlock(j, bs);
      assert x[..j - 1] == Chunks(s, bs)[..j - 1];
      assert x[j - 1] == ChunkAt(s, bs, j - 1) == s[w..w + bs];
      assert s[..w + bs] == s[..w] + s[w..w + bs];
    }
  }
}
