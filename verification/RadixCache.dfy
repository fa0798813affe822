/**
 The radix tree as the program keeps it: nodes in an arena, token keys, child maps keyed by the
 first block's tokens, the eviction list and its counter, all updated in place. `tree` is the
 value the representation stands for; every method is proved against the update of that value.
 */
module RadixCache {
  import opened Basics
  import opened Tokens
  import opened PoolSpec
  import opened RadixSpec
  import opened RadixUpdate
  import opened RadixInsertEvict
  import B = BlockPool
  import L = LruList

  /** The null pointer. */
  const NIL: int := -1

  datatype RadixNode = RadixNode(
    key: seq<Token>,
    blockTable: seq<nat>,
    parent: int,
    children: map<seq<Token>, int>,
    lockRef: int)

  // ---------------------------------------------------------------- tokens against chunks

  lemma {:induction false} CommonIs<T>(a: seq<T>, b: seq<T>, k: nat)
    requires k <= |a| && k <= |b| && a[..k] == b[..k]
    requires k < |a| && k < |b| ==> a[k] != b[k]
    ensures Common(a, b) == k
  {
    var m := Common(a, b);
    assert forall i :: 0 <= i < k ==> a[..k][i] == a[i] && b[..k][i] == b[i];
    assert forall i :: 0 <= i < m ==> a[..m][i] == a[i] && b[..m][i] == b[i];
  }

  lemma ChunksDrop(s: seq<Token>, k: nat, n: nat, bs: nat)
    requires bs > 0 && k * bs <= n * bs == |s|
    ensures |Chunks(s, bs)| == n && k <= n && |Chunks(s[k * bs..], bs)| == n - k
    ensures Chunks(s[k * bs..], bs) == Chunks(s, bs)[k..]
  {
    DivIs(|s|, bs, n);
    MulCancel(k, n, bs);
    assert (n - k) * bs == n * bs - k * bs;
    DivIs(|s| - k * bs, bs, n - k);
    forall i | 0 <= i < n - k ensures Chunks(s[k * bs..], bs)[i] == Chunks(s, bs)[k..][i] {
      ChunkFrom(s, k, i, bs);
    }
  }

  lemma OffsetBlock(n: nat, k: nat, i: nat, bs: nat)
    requires bs > 0 && k * bs <= n && i < (n - k * bs) / bs
    ensures (k + i) * bs == k * bs + i * bs && 0 <= i * bs && i * bs + bs <= n - k * bs && k + i < n / bs
  {
    DivBounds(n - k * bs, bs);
    MulMono(i + 1, (n - k * bs) / bs, bs);
    DivBounds(n, bs);
    if k + i >= n / bs { MulMono(n / bs, k + i, bs); }
  }

  lemma ChunkFrom(s: seq<Token>, k: nat, i: nat, bs: nat)
    requires bs > 0 && k * bs <= |s| && i < |s[k * bs..]| / bs
    ensures k + i < |s| / bs && ChunkAt(s[k * bs..], bs, i) == ChunkAt(s, bs, k + i)
  {
    OffsetBlock(|s|, k, i, bs);
    var w, d := k * bs, i * bs;
    assert s[w..][d..d + bs] == s[w + d..w + d + bs];
  }

  lemma ChunksTake(s: seq<Token>, k: nat, bs: nat)
    requires bs > 0 && k * bs <= |s|
    ensures k <= |s| / bs && Chunks(s[..k * bs], bs) == Chunks(s, bs)[..k]
  {
    DivIs(k * bs, bs, k);
    ChunksPrefix(s, k * bs, bs);
  }

  lemma ChunkTokens(s: seq<Token>, bs: nat, i: nat, o: nat)
    requires bs > 0 && i < |s| / bs && o < bs
    ensures i * bs + o < |s| && Chunks(s, bs)[i][o] == s[i * bs + o]
  {
    DivBounds(|s|, bs);
    MulMono(i + 1, |s| / bs, bs);
  }

  lemma TokensInBlock(a: seq<Token>, b: seq<Token>, bs: nat, m: nat, i: nat, o: nat)
    requires bs > 0 && i < |a| / bs && i < |b| / bs && o < bs && i * bs + o < m
    requires m <= |a| && m <= |b| && a[..m] == b[..m]
    ensures Chunks(a, bs)[i][o] == Chunks(b, bs)[i][o]
  {
    hide Chunks;
    ChunkTokens(a, bs, i, o);
    ChunkTokens(b, bs, i, o);
    assert a[..m][i * bs + o] == b[..m][i * bs + o];
  }

  /** Block `i` agrees on its first `o` tokens when these lie below `m`. */
  lemma BlockAgrees(a: seq<Token>, b: seq<Token>, bs: nat, m: nat, i: nat, o: nat)
    requires bs > 0 && i < |a| / bs && i < |b| / bs && o <= bs && i * bs + o <= m
    requires m <= |a| && m <= |b| && a[..m] == b[..m]
    ensures Chunks(a, bs)[i][..o] == Chunks(b, bs)[i][..o]
  {
    forall j | 0 <= j < o ensures Chunks(a, bs)[i][j] == Chunks(b, bs)[i][j] {
      TokensInBlock(a, b, bs, m, i, j);
    }
  }

  lemma BlocksAgree(a: seq<Token>, b: seq<Token>, bs: nat, m: nat, k: nat)
    requires bs > 0 && k <= |a| / bs && k <= |b| / bs && k * bs <= m
    requires m <= |a| && m <= |b| && a[..m] == b[..m]
    ensures Chunks(a, bs)[..k] == Chunks(b, bs)[..k]
  {
    var ca, cb := Chunks(a, bs), Chunks(b, bs);
    assert |ca| == |a| / bs && |cb| == |b| / bs;
    hide Chunks;
    forall i | 0 <= i < k ensures ca[i] == cb[i] {
      BlockAgreesWhole(a, b, bs, m, k, i);
    }
  }

  lemma BlockAgreesWhole(a: seq<Token>, b: seq<Token>, bs: nat, m: nat, k: nat, i: nat)
    requires bs > 0 && i < k <= |a| / bs && k <= |b| / bs && k * bs <= m
    requires m <= |a| && m <= |b| && a[..m] == b[..m]
    ensures Chunks(a, bs)[i] == Chunks(b, bs)[i]
  {
    MulMono(i + 1, k, bs);
    BlockAgrees(a, b, bs, m, i, bs);
    assert Chunks(a, bs)[i][..bs] == Chunks(a, bs)[i] && Chunks(b, bs)[i][..bs] == Chunks(b, bs)[i];
  }

  lemma BlockDiffers(a: seq<Token>, b: seq<Token>, bs: nat, k: nat, o: nat)
    requires bs > 0 && k < |a| / bs && k < |b| / bs && o < bs
    requires k * bs + o < |a| && k * bs + o < |b| ==> a[k * bs + o] != b[k * bs + o]
    ensures Chunks(a, bs)[k][o] != Chunks(b, bs)[k][o]
  {
    hide Chunks;
    ChunkTokens(a, bs, k, o);
    ChunkTokens(b, bs, k, o);
  }

  /** Quotient and remainder of a matched length within a whole-block length. */
  lemma MatchArithmetic(n: nat, bs: nat, k: nat, o: nat)
    requires k * bs + o <= n * bs && o < bs
    ensures k <= n && (k < n <==> k * bs + o < n * bs) && (k == n ==> o == 0)
  {
    MulCancel(k, n, bs);
    if k < n { MulMono(k + 1, n, bs); }
  }

  lemma TokenCommonAt(a: seq<Token>, b: seq<Token>, bs: nat, m: nat, k: nat, o: nat)
    requires bs > 0 && m == Common(a, b) && m == k * bs + o && o < bs
    requires k <= |a| / bs && k <= |b| / bs
    requires k < |a| / bs && k < |b| / bs ==> m < |a| && m < |b|
    ensures Common(Chunks(a, bs), Chunks(b, bs)) == k
    ensures k < |a| / bs && k < |b| / bs ==> Common(Chunks(a, bs)[k], Chunks(b, bs)[k]) == o
  {
    var ca, cb := Chunks(a, bs), Chunks(b, bs);
    assert |ca| == |a| / bs && |cb| == |b| / bs;
    hide Common, Chunks;
    BlocksAgree(a, b, bs, m, k);
    if k < |ca| && k < |cb| {
      BlockAgrees(a, b, bs, m, k, o);
      BlockDiffers(a, b, bs, k, o);
      assert |ca[k]| == |cb[k]| == bs by { BlockLength(a, bs, k); BlockLength(b, bs, k); }
      CommonIs(ca[k], cb[k], o);
    }
    CommonIs(ca, cb, k);
  }

  lemma BlockLength(a: seq<Token>, bs: nat, k: nat)
    requires bs > 0 && k < |a| / bs
    ensures |Chunks(a, bs)[k]| == bs
  {}

  /** Number of tokens in `k` blocks. */
  function Len(k: nat, bs: nat): nat {
    k * bs
  }

  lemma LenAdd(a: nat, b: nat, bs: nat)
    ensures Len(a + b, bs) == Len(a, bs) + Len(b, bs)
  {}

  lemma LenNext(a: nat, bs: nat)
    ensures Len(a + 1, bs) == Len(a, bs) + bs && Len(0, bs) == 0
  {}

  lemma LenMono(a: nat, b: nat, bs: nat)
    requires a <= b
    ensures Len(a, bs) <= Len(b, bs)
  {}

  lemma ChunkCount(a: seq<Token>, bs: nat, n: nat)
    requires bs > 0 && |a| == Len(n, bs)
    ensures |a| / bs == n == |Chunks(a, bs)|
  {
    DivIs(|a|, bs, n);
  }

  /**
   Comparing tokens finds the common whole blocks, and stops inside a block exactly when the two
   blocks there agree on a non-empty proper part.
   */
  lemma TokenCommon(a: seq<Token>, b: seq<Token>, bs: nat, na: nat, nb: nat, k: nat, o: nat)
    requires o < bs && |a| == Len(na, bs) && |b| == Len(nb, bs) && Common(a, b) == Len(k, bs) + o
    ensures |Chunks(a, bs)| == na && |Chunks(b, bs)| == nb && k <= na && k <= nb
    ensures Common(Chunks(a, bs), Chunks(b, bs)) == k
    ensures k == na <==> Len(k, bs) + o == |a|
    ensures k == nb <==> Len(k, bs) + o == |b|
    ensures o == if k < na && k < nb then Common(Chunks(a, bs)[k], Chunks(b, bs)[k]) else 0
  {
    MatchArithmetic(na, bs, k, o);
    MatchArithmetic(nb, bs, k, o);
    ChunkCount(a, bs, na);
    ChunkCount(b, bs, nb);
    hide Common, Chunks;
    TokenCommonAt(a, b, bs, k * bs + o, k, o);
  }

  /** The comparison loop of a lookup. */
  method MatchKey(key: seq<Token>, tokens: seq<Token>, from: nat, total: nat) returns (m: nat)
    requires from <= total <= |tokens|
    ensures m == Common(key, tokens[from..total])
  {
    m := 0;
    var u := tokens[from..total];
    while m < |key| && from + m < total
      invariant m <= |key| && from + m <= total && key[..m] == u[..m]
    {
      if key[m] != tokens[from + m] {
        break;
      }
      assert key[..m + 1] == key[..m] + [key[m]] && u[..m + 1] == u[..m] + [u[m]];
      m := m + 1;
    }
    CommonIs(key, u, m);
  }

  // ---------------------------------------------------------------- the representation

  /** The arena node `c` stands for the tree node `x`. */
  ghost predicate Agrees(c: RadixNode, x: Node, bs: nat)
    requires bs > 0
  {
    && |c.key| == Len(|x.key|, bs) && Chunks(c.key, bs) == x.key && c.blockTable == x.blocks
    && c.parent == x.parent && c.children == x.children && c.lockRef == x.lock
  }

  ghost predicate Rep(nodes: map<int, RadixNode>, t: Tree, bs: nat)
    requires bs > 0
  {
    && nodes.Keys == t.nodes.Keys
    && forall n :: n in nodes ==> Agrees(nodes[n], t.nodes[n], bs)
  }

  /** The fork key of a segment is its first block. */
  lemma FirstBlock(key: seq<Token>, n: nat, bs: nat)
    requires bs > 0 && |key| == Len(n, bs) && n > 0
    ensures |key| >= bs && |Chunks(key, bs)| == n && Chunks(key, bs)[0] == key[..bs]
  {
    ChunkCount(key, bs, n);
    MulMono(1, n, bs);
  }

  /** Cutting a segment of `n` blocks after `k` of them. */
  lemma KeyCut(key: seq<Token>, n: nat, k: nat, bs: nat)
    requires bs > 0 && |key| == Len(n, bs) && 0 < k < n
    ensures 0 < k * bs < |key| && |key[..k * bs]| == Len(k, bs) && |key[k * bs..]| == Len(n - k, bs) && bs <= k * bs
    ensures |Chunks(key, bs)| == n
    ensures Chunks(key[..k * bs], bs) == Chunks(key, bs)[..k] && Chunks(key[k * bs..], bs) == Chunks(key, bs)[k..]
    ensures key[..k * bs][..bs] == Chunks(key, bs)[0] && bs <= |key[k * bs..]| && key[k * bs..][..bs] == Chunks(key, bs)[k]
  {
    MulMono(1, k, bs);
    MulMono(k + 1, n, bs);
    ChunkCount(key, bs, n);
    ChunksTake(key, k, bs);
    ChunksDrop(key, k, n, bs);
    assert (n - k) * bs == n * bs - k * bs;
    FirstBlock(key[k * bs..], n - k, bs);
    FirstBlock(key, n, bs);
    assert key[..k * bs][..bs] == key[..bs];
  }

  lemma RepAt(nodes: map<int, RadixNode>, t: Tree, bs: nat, n: int)
    requires bs > 0 && Rep(nodes, t, bs) && n in nodes
    ensures n in t.nodes && Agrees(nodes[n], t.nodes[n], bs)
    ensures nodes[n].children == t.nodes[n].children && nodes[n].blockTable == t.nodes[n].blocks
  {}

  /** The key of a node is exactly the tokens of its blocks. */
  predicate Whole(x: RadixNode, bs: nat) {
    |x.key| == Len(|x.blockTable|, bs)
  }

  lemma RepWhole(nodes: map<int, RadixNode>, t: Tree, bs: nat, n: int)
    requires bs > 0 && Rep(nodes, t, bs) && n in nodes && Shape(t)
    ensures Whole(nodes[n], bs)
  {
    hide Len;
    RepAt(nodes, t, bs, n);
    if n != ROOT { Up(t, n); }
  }

  lemma RepKeys(nodes: map<int, RadixNode>, t: Tree, bs: nat)
    requires bs > 0 && Rep(nodes, t, bs)
    ensures nodes.Keys == t.nodes.Keys
  {}

  // ---------------------------------------------------------------- lookup, one node at a time

  /** The lookup of `x` passes through node `now`. */
  ghost predicate OnPath(t: Tree, x: seq<Chunk>, now: int) {
    && Shape(t) && OnWay(t, now, x)
    && (now != ROOT ==> Common(t.nodes[now].key, x[t.nodes[now].Start()..]) > 0)
    && Walk(t, now, x) == Find(t, x)
  }

  lemma PathStart(t: Tree, x: seq<Chunk>)
    requires Shape(t)
    ensures OnPath(t, x, ROOT) && ROOT in t.nodes && t.nodes[ROOT].Start() == 0 && PathBlocks(t, ROOT) == []
  {}

  lemma PathStops(t: Tree, x: seq<Chunk>, now: int, m: nat)
    requires OnPath(t, x, now) && m == Common(t.nodes[now].key, x[t.nodes[now].Start()..])
    requires !Descends(t, now, x, m)
    ensures Find(t, x) == (now, t.nodes[now].Start() + m)
  {}

  lemma PathDescends(t: Tree, x: seq<Chunk>, now: int, m: nat)
    requires OnPath(t, x, now) && m == Common(t.nodes[now].key, x[t.nodes[now].Start()..])
    requires Descends(t, now, x, m)
    ensures var c := t.nodes[now].children[x[t.nodes[now].Start() + m]];
      && OnPath(t, x, c) && c != ROOT && t.nodes[c].Start() == t.nodes[now].Start() + m == |t.nodes[now].path|
      && c in t.nodes && PathBlocks(t, c)[..t.nodes[c].Start()] == PathBlocks(t, now)
  {
    WalkDescends(t, now, x, m);
    Down(t, now, x[t.nodes[now].Start() + m]);
    Up(t, t.nodes[now].children[x[t.nodes[now].Start() + m]]);
  }

  lemma NotDescends(t: Tree, x: seq<Chunk>, now: int, k: nat)
    requires OnPath(t, x, now) && k <= |t.nodes[now].key|
    requires var at := t.nodes[now].Start() + k; k < |t.nodes[now].key| || at == |x| || (at < |x| && x[at] !in t.nodes[now].children)
    ensures !Descends(t, now, x, k)
  {}

  lemma DescendsBy(t: Tree, x: seq<Chunk>, now: int, k: nat)
    requires OnPath(t, x, now) && k == |t.nodes[now].key|
    requires var at := t.nodes[now].Start() + k; at < |x| && x[at] in t.nodes[now].children
    ensures Descends(t, now, x, k) && t.nodes[now].children != map[] && |t.nodes[now].path| == t.nodes[now].Start() + k
  {
    PathSplit(t, now);
  }

  /** The blocks collected so far are those of the root path. */
  lemma MatchStep(t: Tree, x: seq<Chunk>, now: int, k: nat, blocks: seq<nat>)
    requires OnPath(t, x, now) && k <= |t.nodes[now].key| && blocks == PathBlocks(t, now)[..t.nodes[now].Start()]
    ensures k <= |t.nodes[now].blocks| && t.nodes[now].Start() + k <= |t.nodes[now].path|
    ensures blocks + t.nodes[now].blocks[..k] == PathBlocks(t, now)[..t.nodes[now].Start() + k]
    ensures Find(t, x) == (now, t.nodes[now].Start() + k) ==> Matched(t, x) == PathBlocks(t, now)[..t.nodes[now].Start() + k]
  {
    hide Walk, Find;
    if now != ROOT { Up(t, now); }
  }

  lemma SameRep(nodes: map<int, RadixNode>, t: Tree, u: Tree, bs: nat)
    requires bs > 0 && Rep(nodes, t, bs) && u.nodes == t.nodes
    ensures Rep(nodes, u, bs)
  {}

  lemma WholeSegment(y: Node, x: seq<Chunk>, at: nat, k: nat, o: nat)
    requires Compares(y, x, at, k, o) && k >= |y.key|
    ensures o == 0 && k == |y.key|
  {}

  lemma NewIds(nodes: map<int, RadixNode>, t: Tree, bs: nat, p: int)
    requires bs > 0 && Rep(nodes, t, bs) && Shape(t) && LruOk(t)
    ensures t.next !in nodes && t.next !in t.lru && t.next !in Without(t.lru, p) && t.next >= 0
    ensures forall n :: n in nodes ==> nodes[n].blockTable == t.nodes[n].blocks
  {
    assert forall n :: n in t.lru <==> Evictable(t, n);
    WithoutProps(t.lru, p);
  }

  lemma LeafKey(t: Tree, p: int, key: seq<Token>, blocks: seq<nat>, bs: nat)
    requires bs > 0 && FitsLeaf(t, p, Chunks(key, bs), blocks) && |key| == Len(|blocks|, bs)
    ensures |key| >= bs && |Chunks(key, bs)| == |blocks| > 0 && p in t.nodes && Chunks(key, bs)[0] == key[..bs]
  {
    FirstBlock(key, |blocks|, bs);
  }

  lemma AddLeafFields(t: Tree, p: int, key: seq<Chunk>, blocks: seq<nat>)
    requires p in t.nodes && 0 < |key|
    ensures var u := AddLeaf(t, p, key, blocks);
      && u.next == t.next + 1
      && u.lru == (if p in t.lru then Without(t.lru, p) else t.lru) + [t.next]
      && u.evictable == t.evictable - (if p in t.lru then |t.nodes[p].blocks| else 0) + |blocks|
  {}

  lemma LeafRep(nodes: map<int, RadixNode>, t: Tree, bs: nat, p: int, key: seq<Token>, blocks: seq<nat>)
    requires bs > 0 && Rep(nodes, t, bs) && FitsLeaf(t, p, Chunks(key, bs), blocks) && |key| == Len(|blocks|, bs)
    requires |key| >= bs && |Chunks(key, bs)| == |blocks| > 0 && p in nodes && Chunks(key, bs)[0] == key[..bs]
    ensures var m := nodes[t.next := RadixNode(key, blocks, p, map[], 0)];
      Rep(m[p := m[p].(children := m[p].children[key[..bs] := t.next])], AddLeaf(t, p, Chunks(key, bs), blocks), bs)
  {
    hide Chunks, Len;
  }

  lemma UsedUp(y: Node, x: seq<Chunk>, at: nat, k: nat, o: nat)
    requires Compares(y, x, at, k, o)
    ensures at + k <= |x| && (at + k == |x| ==> o == 0)
  {}

  lemma {:induction false} FreeConcat(p: Pool, a: seq<nat>, b: seq<nat>)
    ensures Free(p, a + b) == if Free(p, a).0 then Free(Free(p, a).1, b) else Free(p, a)
    decreases a
  {
    if a == [] {
      assert a + b == b;
    } else if Allocated(p, a[0]) {
      assert (a + b)[1..] == a[1..] + b;
      FreeConcat(Decr(p, a[0]), a[1..], b);
    }
  }

  lemma FreeNone(p: Pool)
    ensures Free(p, []) == (true, p)
  {}

  lemma EvictStart(t: Tree, need: int)
    requires Shape(t) && LruOk(t)
    ensures [] + Evict(t, need).1 == Evict(t, need).1
  {}

  /** The arena without a leaf. */
  function Detached(nodes: map<int, RadixNode>, node: int, bs: nat): map<int, RadixNode>
    requires node in nodes && |nodes[node].key| >= bs && nodes[node].parent in nodes
  {
    var x := nodes[node];
    var p := nodes[x.parent];
    nodes[x.parent := p.(children := p.children - {x.key[..bs]})] - {node}
  }

  lemma LeafReady(nodes: map<int, RadixNode>, t: Tree, bs: nat)
    requires bs > 0 && Rep(nodes, t, bs) && Shape(t) && LruOk(t) && t.lru != []
    ensures var n := t.lru[0];
      && n in nodes && n in t.nodes && n !in t.lru[1..] && |nodes[n].key| >= bs && nodes[n].parent in nodes && nodes[n].parent != n
      && nodes[n].parent !in t.lru && nodes[n].parent >= 0
      && Rep(Detached(nodes, n, bs), EvictOne(t), bs)
      && nodes[n].blockTable == t.nodes[n].blocks
      && EvictOne(t).next == t.next
      && var (p, u) := (nodes[n].parent, Detached(nodes, n, bs));
         var cascade := p != ROOT && u[p].children == map[] && u[p].lockRef == 0;
         && EvictOne(t).lru == t.lru[1..] + (if cascade then [p] else [])
         && EvictOne(t).evictable == t.evictable - |nodes[n].blockTable| + (if cascade then |u[p].blockTable| else 0)
  {
    var n := t.lru[0];
    EvictHead(t);
    RepAt(nodes, t, bs, n);
    FirstBlock(nodes[n].key, |t.nodes[n].key|, bs);
    var p := t.nodes[n].parent;
    RepAt(nodes, t, bs, p);
    assert t.nodes[n].key[0] in t.nodes[p].children;
    assert p in t.lru <==> Evictable(t, p);
    hide Chunks, Len, LruOk, Shape;
  }

  lemma BlocksLength(t: Tree, n: int)
    requires Shape(t) && n in t.nodes
    ensures |t.nodes[n].blocks| == |t.nodes[n].key|
  {
    if n != ROOT { Up(t, n); }
  }

  lemma Quotient(m: nat, bs: nat)
    requires bs > 0
    ensures m == Len(Blk(m, bs), bs) + Off(m, bs) && Off(m, bs) < bs
  {
    DivBounds(m, bs);
  }

  /** The block-aligned length. */
  function Total(tokens: seq<Token>, bs: nat): (r: nat)
    requires bs > 0
    ensures r <= |tokens|
  {
    DivBounds(|tokens|, bs);
    |tokens| / bs * bs
  }

  lemma AlignedChunks(tokens: seq<Token>, k: nat, bs: nat)
    requires bs > 0 && k <= |Chunks(tokens, bs)|
    ensures Len(k, bs) <= Total(tokens, bs) == Len(|Chunks(tokens, bs)|, bs) <= |tokens|
    ensures |tokens[Len(k, bs)..Total(tokens, bs)]| == Len(|Chunks(tokens, bs)| - k, bs)
    ensures Chunks(tokens[Len(k, bs)..Total(tokens, bs)], bs) == Chunks(tokens, bs)[k..]
  {
    var n, total := |tokens| / bs, Total(tokens, bs);
    MulMono(k, n, bs);
    DivBounds(|tokens|, bs);
    ChunksTake(tokens, n, bs);
    ChunksDrop(tokens[..total], k, n, bs);
    assert tokens[..total][k * bs..] == tokens[k * bs..total];
    LenAdd(k, n - k, bs);
  }

  /** What comparing `m` tokens against the segment of node `y` tells about whole blocks. */
  ghost predicate Compares(y: Node, x: seq<Chunk>, start: nat, k: nat, o: nat) {
    && start + k <= |x| && k <= |y.key|
    && k == Common(y.key, x[start..])
    && o == if k < |y.key| && start + k < |x| then Common(y.key[k], x[start + k]) else 0
  }

  lemma StepTokens(c: RadixNode, y: Node, bs: nat, tokens: seq<Token>, start: nat, k: nat, o: nat)
    requires bs > 0 && Agrees(c, y, bs) && start <= |Chunks(tokens, bs)| && Len(start, bs) <= Total(tokens, bs)
    requires Len(k, bs) + o == Common(c.key, tokens[Len(start, bs)..Total(tokens, bs)]) && o < bs
    ensures Compares(y, Chunks(tokens, bs), start, k, o) && k <= |y.key| && start + k <= |Chunks(tokens, bs)|
    ensures Len(k, bs) + o < |c.key| <==> k < |y.key|
    ensures Len(start + k, bs) + o <= Total(tokens, bs)
    ensures Len(start + k, bs) + o < Total(tokens, bs) <==> start + k < |Chunks(tokens, bs)|
  {
    var x := Chunks(tokens, bs);
    hide Chunks, Common, Total, Len;
    AlignedChunks(tokens, start, bs);
    var b := tokens[Len(start, bs)..Total(tokens, bs)];
    TokenCommon(c.key, b, bs, |y.key|, |x| - start, k, o);
    LenAdd(start, k, bs);
    LenAdd(start, |x| - start, bs);
  }

  lemma NextFork(tokens: seq<Token>, bs: nat, k: nat)
    requires bs > 0 && k < |Chunks(tokens, bs)|
    ensures Len(k, bs) + bs <= Total(tokens, bs) && Chunks(tokens, bs)[k] == tokens[Len(k, bs)..Len(k, bs) + bs]
  {
    MulMono(k + 1, |tokens| / bs, bs);
  }

  /** The lookup has compared the tokens above node `now` and collected their blocks. */
  ghost predicate Here(t: Tree, x: seq<Chunk>, now: int, blocks: seq<nat>) {
    && OnPath(t, x, now)
    && blocks == PathBlocks(t, now)[..t.nodes[now].Start()]
  }

  lemma HereStart(t: Tree, x: seq<Chunk>)
    requires Shape(t)
    ensures ROOT in t.nodes && Here(t, x, ROOT, []) && t.nodes[ROOT].Start() == 0
  {
    PathStart(t, x);
  }

  /** The lookup stops inside a segment, or when `x` is used up, or when no child fits. */
  lemma StopsHere(t: Tree, x: seq<Chunk>, now: int, blocks: seq<nat>, k: nat, o: nat)
    requires Here(t, x, now, blocks) && Compares(t.nodes[now], x, t.nodes[now].Start(), k, o)
    requires var at := t.nodes[now].Start() + k;
      k < |t.nodes[now].key| || at == |x| || (at < |x| && x[at] !in t.nodes[now].children)
    ensures k <= |t.nodes[now].blocks| && Find(t, x) == (now, t.nodes[now].Start() + k)
    ensures Matched(t, x) == blocks + t.nodes[now].blocks[..k]
  {
    hide Walk, Find, OnWay, Common;
    NotDescends(t, x, now, k);
    PathStops(t, x, now, k);
    MatchStep(t, x, now, k, blocks);
  }

  lemma GoesDown(t: Tree, x: seq<Chunk>, now: int, blocks: seq<nat>, k: nat, o: nat)
    requires LruOk(t) && Here(t, x, now, blocks) && Compares(t.nodes[now], x, t.nodes[now].Start(), k, o)
    requires k == |t.nodes[now].key| && var at := t.nodes[now].Start() + k; at < |x| && x[at] in t.nodes[now].children
    ensures var (at, c) := (t.nodes[now].Start() + k, t.nodes[now].children[x[t.nodes[now].Start() + k]]);
      && now !in t.lru && c in t.nodes && c != ROOT && t.nodes[c].Start() == at && k <= |t.nodes[now].blocks|
      && Here(t, x, c, blocks + t.nodes[now].blocks[..k]) && (now == ROOT || k > 0)
  {
    hide Walk, Find, OnWay, Common;
    assert now in t.lru <==> Evictable(t, now);
    DescendsBy(t, x, now, k);
    PathDescends(t, x, now, k);
    MatchStep(t, x, now, k, blocks);
    if now != ROOT { Up(t, now); }
  }

  /** Insertion when the lookup stops inside the segment of `n`. */
  lemma InsertCuts(t: Tree, x: seq<Chunk>, bt: seq<nat>, n: int, k: nat, o: nat)
    requires Shape(t) && |x| <= |bt| && n in t.nodes && Find(t, x) == (n, t.nodes[n].Start() + k)
    requires k < |t.nodes[n].key| && Compares(t.nodes[n], x, t.nodes[n].Start(), k, o)
    ensures n != ROOT && 0 < k && Known(t, x) == t.nodes[n].Start() + k
    ensures DivergesMidBlock(t, x) <==> o > 0
    ensures var (u, len) := (Split(t, n, k), t.nodes[n].Start() + k);
      && t.next in u.nodes && u.nodes[t.next].path == x[..len] && x[..len] + x[len..] == x
      && (len == |x| ==> Insert(t, x, bt) == u)
      && (len < |x| ==> FitsLeaf(u, t.next, x[len..], bt[len..|x|]) && Insert(t, x, bt) == AddLeaf(u, t.next, x[len..], bt[len..|x|]))
  {
    hide Walk, Find, Common, AddLeaf, UpOk, DownOk, StopsAt;
    var len := t.nodes[n].Start() + k;
    StopFacts(t, x, n, len);
    PathSplit(t, n);
    assert t.nodes[n].path[len] == t.nodes[n].key[k];
    SplitFront(t, n, k);
    SplitShape(t, n, k);
    InsertLeafFits(t, x, bt);
  }

  lemma StopFacts(t: Tree, x: seq<Chunk>, n: int, len: nat)
    requires Shape(t) && Find(t, x) == (n, len)
    ensures n in t.nodes && len <= |x| && len <= |t.nodes[n].path| && x[..len] == t.nodes[n].path[..len]
    ensures n == ROOT ==> len == 0
    ensures n != ROOT ==> UpOk(t, n) && 0 <= t.nodes[n].Start() < len
    ensures n == ROOT ==> t.nodes[n].key == []
  {
    if n != ROOT { Up(t, n); }
  }

  /** Insertion when the lookup uses up the whole segment of `n`. */
  lemma InsertHangs(t: Tree, x: seq<Chunk>, bt: seq<nat>, n: int, len: nat)
    requires Shape(t) && |x| <= |bt| && Find(t, x) == (n, len) && n in t.nodes && len == |t.nodes[n].path|
    ensures Known(t, x) == len && !DivergesMidBlock(t, x) && t.nodes[n].path == x[..len] && x[..len] + x[len..] == x
    ensures len == |x| ==> Insert(t, x, bt) == t
    ensures len < |x| ==> FitsLeaf(t, n, x[len..], bt[len..|x|]) && Insert(t, x, bt) == AddLeaf(t, n, x[len..], bt[len..|x|])
  {
    hide Walk, Find, Common, AddLeaf, UpOk, DownOk, StopsAt;
    StopFacts(t, x, n, len);
    InsertLeafFits(t, x, bt);
  }

  lemma LeafPath(t: Tree, p: int, key: seq<Chunk>, blocks: seq<nat>)
    requires FitsLeaf(t, p, key, blocks)
    ensures t.next in AddLeaf(t, p, key, blocks).nodes
    ensures AddLeaf(t, p, key, blocks).nodes[t.next].path == t.nodes[p].path + key
  {
    AddLeafBasics(t, p, key, blocks);
  }

  /** The tokens of the leaf as the program cuts it: whole blocks only when `o` is zero. */
  lemma LeafTokens(tokens: seq<Token>, bs: nat, len: nat, o: nat, matched: nat)
    requires bs > 0 && o < bs && matched == Len(len, bs) + o && len < |Chunks(tokens, bs)|
    ensures var (x, total) := (Chunks(tokens, bs), Total(tokens, bs));
      && matched < total <= |tokens| && Blk(matched, bs) == len && Blk(total, bs) == |x|
      && |tokens[matched..total]| == Len(|x| - len, bs) - o
      && (o == 0 ==> Chunks(tokens[matched..total], bs) == x[len..])
  {
    var x, total := Chunks(tokens, bs), Total(tokens, bs);
    AlignedChunks(tokens, len, bs);
    BlkOffOf(len, o, bs);
    BlkOffOf(|x|, 0, bs);
    LenMono(len + 1, |x|, bs);
    LenNext(len, bs);
  }

  lemma RefNone(p: Pool, ids: seq<nat>)
    requires ids == []
    ensures Ref(p, ids) == (true, p)
  {}

  lemma PathEnd(t: Tree, n: int)
    requires Shape(t) && n in t.nodes
    ensures t.nodes[n].Start() + |t.nodes[n].key| == |t.nodes[n].path|
  {}

  lemma RefSlice(p: Pool, ids: seq<nat>, from: nat, to: nat)
    requires from <= to <= |ids| && forall i :: 0 <= i < |ids| ==> Allocated(p, ids[i])
    ensures Ref(p, ids[from..to]).0
  {
    RefPart(p, ids[from..to]);
  }

  lemma WholeCut(key: seq<Token>, n: nat, k: nat, bs: nat)
    requires bs > 0 && |key| == Len(n, bs) && 0 < k < n
    ensures 0 < k * bs && Off(k * bs, bs) == 0 && Blk(k * bs, bs) == k && |key| - k * bs >= bs
  {
    KeyCut(key, n, k, bs);
    BlkOffOf(k, 0, bs);
  }

  lemma Aligned(len: nat, n: nat, o: nat, bs: nat)
    requires o < bs && Len(len, bs) + o == Len(n, bs)
    ensures len == n && o == 0
  {
    if len < n { LenMono(len + 1, n, bs); LenNext(len, bs); }
    if n < len { LenMono(n + 1, len, bs); LenNext(n, bs); }
  }

  lemma RefPart(p: Pool, ids: seq<nat>)
    requires forall i :: 0 <= i < |ids| ==> Allocated(p, ids[i])
    ensures Ref(p, ids).0
    decreases |ids|
  {
    if ids != [] {
      var q := p.(ref := p.ref[ids[0] := p.ref[ids[0]] + 1]);
      forall i | 0 <= i < |ids[1..]| ensures Allocated(q, ids[1..][i]) { assert ids[1..][i] == ids[i + 1]; }
      RefPart(q, ids[1..]);
    }
  }

  /** The arena after cutting `child` at token `len`, block `k`, the front going to the new node `node`. */
  function CutArena(nodes: map<int, RadixNode>, child: int, len: nat, k: nat, bs: nat, node: int): map<int, RadixNode>
    requires child in nodes && nodes[child].parent in nodes && nodes[child].parent != child
    requires bs <= len <= |nodes[child].key| - bs && k <= |nodes[child].blockTable|
  {
    var x := nodes[child];
    var back := x.(key := x.key[len..], blockTable := x.blockTable[k..]);
    var m := nodes[child := back];
    var m := m[node := RadixNode(x.key[..len], x.blockTable[..k], x.parent, map[back.key[..bs] := child], x.lockRef)];
    var m := m[x.parent := m[x.parent].(children := m[x.parent].children[x.key[..len][..bs] := node])];
    m[child := m[child].(parent := node)]
  }

  lemma CutOk(nodes: map<int, RadixNode>, t: Tree, bs: nat, child: int, len: int)
    requires bs > 0 && Rep(nodes, t, bs) && Shape(t) && child in nodes
    requires 0 < len && Off(len, bs) == 0 && |nodes[child].key| - len >= bs
    ensures child in t.nodes && child != ROOT && 0 < Blk(len, bs) < |t.nodes[child].key| && len == Blk(len, bs) * bs
    ensures UpOk(t, child) && t.next !in nodes && nodes[child].parent in nodes
    ensures nodes[child].parent != child && bs <= len && Blk(len, bs) <= |nodes[child].blockTable|
  {
    RepAt(nodes, t, bs, child);
    SplitLength(|nodes[child].key|, |t.nodes[child].key|, len, bs);
    Up(t, child);
    KeyCut(nodes[child].key, |t.nodes[child].key|, Blk(len, bs), bs);
  }

  lemma CutRep(nodes: map<int, RadixNode>, t: Tree, bs: nat, child: int, k: nat, len: nat)
    requires bs > 0 && Rep(nodes, t, bs) && Shape(t) && child in nodes && child in t.nodes && child != ROOT
    requires 0 < k < |t.nodes[child].key| && len == k * bs
    requires UpOk(t, child) && t.next !in nodes && nodes[child].parent in nodes && nodes[child].parent != child
    requires bs <= len <= |nodes[child].key| - bs && k <= |nodes[child].blockTable|
    ensures Rep(CutArena(nodes, child, len, k, bs, t.next), Split(t, child, k), bs)
  {
    RepAt(nodes, t, bs, child);
    KeyCut(nodes[child].key, |t.nodes[child].key|, k, bs);
    hide Chunks, Shape;
    var m, u := CutArena(nodes, child, len, k, bs, t.next), Split(t, child, k);
    assert |m[t.next].key| == k * bs;
    assert Agrees(m[t.next], u.nodes[t.next], bs);
    assert Agrees(m[child], u.nodes[child], bs);
  }

  /** The walk up from `h` has dealt with every ancestor of `h` below `now`. */
  ghost predicate Shifted(was: map<int, RadixNode>, nodes: map<int, RadixNode>, t: Tree, h: int, now: int, d: int)
    requires h in t.nodes && was.Keys == t.nodes.Keys && (now == NIL || now in t.nodes)
  {
    && nodes.Keys == was.Keys
    && forall n :: n in nodes ==>
         nodes[n] == was[n].(lockRef := was[n].lockRef + if Anc(t, n, h) && (now == NIL || !Anc(t, n, now)) then d else 0)
  }

  lemma ShiftedStep(was: map<int, RadixNode>, nodes: map<int, RadixNode>, t: Tree, h: int, now: int, d: int)
    requires Shape(t) && h in t.nodes && was.Keys == t.nodes.Keys && now in t.nodes && Anc(t, now, h)
    requires Shifted(was, nodes, t, h, now, d)
    ensures now in nodes
    ensures now != ROOT ==> UpOk(t, now) && Anc(t, t.nodes[now].parent, h)
    ensures t.nodes[now].parent == NIL || t.nodes[now].parent in t.nodes
    ensures Shifted(was, nodes[now := nodes[now].(lockRef := nodes[now].lockRef + d)], t, h, t.nodes[now].parent, d)
    ensures nodes[now] == was[now]
  {
    if now != ROOT { Up(t, now); }
    forall n | n in t.nodes ensures now != ROOT ==> (Anc(t, n, now) <==> n == now || Anc(t, n, t.nodes[now].parent))
      ensures now == ROOT ==> (Anc(t, n, now) <==> n == now)
      ensures now != ROOT ==> !Anc(t, now, t.nodes[now].parent)
    {
      if now != ROOT { AncStep(t, n, now); } else if Anc(t, n, now) { PathUnique(t, n, now); }
    }
  }

  lemma ShiftedRep(was: map<int, RadixNode>, nodes: map<int, RadixNode>, t: Tree, h: int, d: int, u: Tree, bs: nat)
    requires bs > 0 && h in t.nodes && Rep(was, t, bs) && Shifted(was, nodes, t, h, NIL, d)
    requires u.nodes == Shift(t, h, d)
    ensures Rep(nodes, u, bs)
  {}

  lemma ShiftedStart(was: map<int, RadixNode>, t: Tree, h: int, d: int)
    requires Shape(t) && h in t.nodes && was.Keys == t.nodes.Keys
    ensures Shifted(was, was, t, h, h, d) && Anc(t, h, h)
  {}

  /** Only the pinned node itself can be on the eviction list: its ancestors have children. */
  lemma AncestorNotListed(t: Tree, n: int, h: int)
    requires Shape(t) && LruOk(t) && n in t.nodes && h in t.nodes && n != h && Anc(t, n, h)
    ensures n !in Pin(t, h).lru
    ensures n != ROOT ==> t.nodes[n].children != map[]
  {
    WithoutProps(t.lru, h);
    if n != ROOT { LeafHasNoDescendant(t, n, h); }
    assert n in t.lru <==> Evictable(t, n);
  }

  lemma RootHasChildren(t: Tree, h: int)
    requires Shape(t) && h in t.nodes && h != ROOT
    ensures t.nodes[ROOT].children != map[]
    decreases |t.nodes[h].path|
  {
    Up(t, h);
    var p := t.nodes[h].parent;
    if p != ROOT { RootHasChildren(t, p); } else { assert t.nodes[h].key[0] in t.nodes[ROOT].children; }
  }

  class RadixTree {
    const blockSize: nat
    /** Cut new leaves at a block boundary, as documented, rather than at the first differing token. */
    const floored: bool
    const lru: L.LRUList
    var nodes: map<int, RadixNode>
    var evictableBlocks: int
    var nextId: int
    /** The value represented. */
    ghost var tree: Tree

    ghost predicate Valid()
      reads this, lru
    {
      && blockSize > 0 && lru.Valid() && lru.list == tree.lru
      && evictableBlocks == tree.evictable && nextId == tree.next
      && Shape(tree) && LruOk(tree) && Rep(nodes, tree, blockSize)
    }

    constructor (blockSize: nat, floored: bool)
      requires blockSize > 0
      ensures Valid() && tree == EMPTY && this.blockSize == blockSize && this.floored == floored && fresh(lru)
    {
      this.blockSize := blockSize;
      this.floored := floored;
      lru := new L.LRUList();
      nodes := map[ROOT := RadixNode([], [], NIL, map[], 1)];
      evictableBlocks := 0;
      nextId := 1;
      tree := EMPTY;
      new;
      assert Chunks([], blockSize) == [];
      assert LruOk(tree);
    }

    /** The counter and the tree it counts. */
    lemma Counted()
      requires Valid()
      ensures evictableBlocks == tree.evictable && nodes.Keys == tree.nodes.Keys
    {}

    /** `_split_node`. */
    method SplitNode(child: int, splitLen: int) returns (ok: bool, node: int)
      requires Valid() && child in nodes
      modifies this
      ensures Valid()
      ensures ok == (0 < splitLen && Off(splitLen, blockSize) == 0 && |old(nodes)[child].key| - splitLen >= blockSize)
      ensures !ok ==> tree == old(tree)
      ensures ok ==> child != ROOT && 0 < Blk(splitLen, blockSize) < |old(tree).nodes[child].key|
      ensures ok ==> node == old(tree).next && tree == Split(old(tree), child, Blk(splitLen, blockSize))
    {
      if splitLen <= 0 || Off(splitLen, blockSize) != 0 || |nodes[child].key| - splitLen < blockSize {
        return false, NIL;
      }
      hide Shape, LruOk, Rep, UpOk, Split, L.Spells, Chunks, NoDup, Blk, Off, Len, CutArena;
      var k := Blk(splitLen, blockSize);
      CutOk(nodes, tree, blockSize, child, splitLen);
      CutRep(nodes, tree, blockSize, child, k, splitLen);
      SplitShape(tree, child, k);
      SplitLru(tree, child, k);
      SplitCounts(tree, child, k);
      node := Cut(child, splitLen, k);
      if child in lru.inLru {
        evictableBlocks := evictableBlocks - k;
      }
      tree := Split(tree, child, k);
      ok := true;
    }

    /** A new node takes the front of the segment, and the two are linked anew. */
    method Cut(child: int, splitLen: nat, k: nat) returns (node: int)
      requires blockSize > 0 && child in nodes && nextId !in nodes
      requires nodes[child].parent in nodes && nodes[child].parent != child
      requires blockSize <= splitLen <= |nodes[child].key| - blockSize && k <= |nodes[child].blockTable|
      modifies this`nodes, this`nextId
      ensures node == old(nextId) && nextId == node + 1 && nodes == CutArena(old(nodes), child, splitLen, k, blockSize, node)
    {
      var x := nodes[child];
      var nodeKey := x.key[..splitLen];
      var nodeBlockTable := x.blockTable[..k];
      nodes := nodes[child := x.(key := x.key[splitLen..], blockTable := x.blockTable[k..])];
      var nodeFirstBlock := nodeKey[..blockSize];
      var childFirstBlock := nodes[child].key[..blockSize];
      node := nextId;
      nextId := nextId + 1;
      nodes := nodes[node := RadixNode(nodeKey, nodeBlockTable, x.parent, map[childFirstBlock := child], x.lockRef)];
      nodes := nodes[x.parent := nodes[x.parent].(children := nodes[x.parent].children[nodeFirstBlock := node])];
      nodes := nodes[child := nodes[child].(parent := node)];
    }

    /** The comparison at one node of a lookup, and how many whole blocks agree. */
    method Visit(now: int, tokens: seq<Token>, matched: nat, total: nat) returns (mKey: nat, k: nat, ghost o: nat)
      requires Valid() && now in nodes && total == Total(tokens, blockSize)
      requires 0 <= tree.nodes[now].Start() <= |Chunks(tokens, blockSize)|
      requires matched == Len(tree.nodes[now].Start(), blockSize) <= total
      ensures var (x, at, y) := (Chunks(tokens, blockSize), tree.nodes[now].Start(), tree.nodes[now]);
        && Compares(y, x, at, k, o) && k <= |y.key| && at + k <= |x|
        && y.children == nodes[now].children && y.blocks == nodes[now].blockTable && k <= |y.blocks|
        && (mKey < |nodes[now].key| <==> k < |y.key|)
        && mKey == Len(k, blockSize) + o && matched + mKey == Len(at + k, blockSize) + o <= total
        && (matched + mKey < total <==> at + k < |x|)
        && o < blockSize
    {
      hide LruOk, Rep, L.Spells, Shape, Chunks, Total, Common, Len, Agrees, Compares, Blk, Off;
      RepKeys(nodes, tree, blockSize);
      ghost var at := tree.nodes[now].Start();
      AlignedChunks(tokens, at, blockSize);
      mKey := MatchKey(nodes[now].key, tokens, matched, total);
      k := Blk(mKey, blockSize);
      o := Off(mKey, blockSize);
      Quotient(mKey, blockSize);
      RepAt(nodes, tree, blockSize, now);
      StepTokens(nodes[now], tree.nodes[now], blockSize, tokens, at, k, o);
      LenAdd(at, k, blockSize);
      BlocksLength(tree, now);
    }

    /** `match_prefix`: the blocks of the longest cached prefix; the node reached becomes recent. */
    method MatchPrefix(tokens: seq<Token>) returns (blocks: seq<nat>, node: int)
      requires Valid()
      modifies this`tree, lru
      ensures Valid()
      ensures blocks == Matched(old(tree), Chunks(tokens, blockSize))
      ensures node == Find(old(tree), Chunks(tokens, blockSize)).0 && node in nodes
      ensures tree == Touch(old(tree), node)
    {
      hide LruOk, Rep, L.Spells, Shape, Chunks, Without, Total, Common, Evictable, Here, Touch, Matched, Find, OnPath, Len, Agrees, Compares, Walk, OnWay, PathBlocks;
      ghost var t, x := tree, Chunks(tokens, blockSize);
      RepKeys(nodes, t, blockSize);
      HereStart(t, x);
      AlignedChunks(tokens, 0, blockSize);
      LenNext(0, blockSize);
      var total := Total(tokens, blockSize);
      blocks := [];
      var matched, now := 0, ROOT;
      while true
        invariant Valid() && tree == t && now in t.nodes && Here(t, x, now, blocks)
        invariant 0 <= t.nodes[now].Start() <= |x| && matched == Len(t.nodes[now].Start(), blockSize) <= total
        decreases |x| - t.nodes[now].Start(), if now == ROOT then 1 else 0
      {
        Refresh(now);
        ghost var before, at := blocks, t.nodes[now].Start();
        var mKey, k, o := Visit(now, tokens, matched, total);
        matched := matched + mKey;
        blocks := blocks + nodes[now].blockTable[..k];
        if mKey < |nodes[now].key| {
          StopsHere(t, x, now, before, k, o);
          return blocks, now;
        }
        if matched >= total {
          StopsHere(t, x, now, before, k, o);
          return blocks, now;
        }
        WholeSegment(t.nodes[now], x, at, k, o);
        NextFork(tokens, blockSize, at + k);
        if total - matched < blockSize { assert false; }
        var firstBlock := tokens[matched..matched + blockSize];
        if firstBlock !in nodes[now].children {
          StopsHere(t, x, now, before, k, o);
          return blocks, now;
        }
        GoesDown(t, x, now, before, k, o);
        now := nodes[now].children[firstBlock];
      }
    }

    /** A hit makes a listed node the most recent one. */
    method Refresh(now: int)
      requires Valid()
      modifies this`tree, lru
      ensures Valid() && tree == Touch(old(tree), now)
      ensures tree.nodes == old(tree).nodes && (now !in old(tree).lru ==> tree == old(tree))
    {
      hide LruOk, Rep, L.Spells, Shape, Without;
      TouchKeeps(tree, now);
      SameRep(nodes, tree, Touch(tree, now), blockSize);
      if now in lru.inLru {
        var done := lru.MoveToBack(now);
      }
      tree := Touch(tree, now);
    }

    /**
     A new leaf below `parent`, in the order of the program: the node, the references, the eviction
     list, then the link from the parent, which reads one whole block of the key. A key shorter than
     a block is read past its end there; `ok` is false then.
     */
    method AttachLeaf(parent: int, key: seq<Token>, blockTable: seq<nat>, bm: B.BlockManager) returns (ok: bool, leaf: int)
      requires Valid() && bm.Valid() && parent in nodes
      requires Ref(bm.State(), blockTable).0
      modifies this, lru, bm.refCnt
      ensures bm.Valid() && bm.State() == Ref(old(bm.State()), blockTable).1
      ensures leaf in nodes && nodes[leaf] == RadixNode(key, blockTable, parent, map[], 0)
      ensures ok == (|key| >= blockSize)
      ensures FitsLeaf(old(tree), parent, Chunks(key, blockSize), blockTable) && |key| == Len(|blockTable|, blockSize) ==>
        ok && Valid() && leaf == old(tree).next && tree == AddLeaf(old(tree), parent, Chunks(key, blockSize), blockTable)
    {
      hide LruOk, Rep, L.Spells, Shape, Chunks, Without, Len, FitsLeaf, AddLeaf, Ref, PoolOk, B.Linked, B.Chain, B.PoolSize, Evictable;
      hide B.BlockManager.Valid;
      ghost var t := tree;
      ghost var fits := FitsLeaf(t, parent, Chunks(key, blockSize), blockTable) && |key| == Len(|blockTable|, blockSize);
      NewIds(nodes, t, blockSize, parent);
      leaf := nextId;
      nextId := nextId + 1;
      nodes := nodes[leaf := RadixNode(key, blockTable, parent, map[], 0)];
      var done := bm.RefBlocks(blockTable);
      ListLeaf(parent, leaf);
      if |key| < blockSize {
        if fits { LeafKey(t, parent, key, blockTable, blockSize); assert false; }
        return false, leaf;
      }
      var p := nodes[parent];
      nodes := nodes[parent := p.(children := p.children[key[..blockSize] := leaf])];
      if fits {
        LeafKey(t, parent, key, blockTable, blockSize);
        LeafRep(old(nodes), t, blockSize, parent, key, blockTable);
        AddLeafShape(t, parent, Chunks(key, blockSize), blockTable);
        AddLeafLru(t, parent, Chunks(key, blockSize), blockTable);
        AddLeafFields(t, parent, Chunks(key, blockSize), blockTable);
        tree := AddLeaf(t, parent, Chunks(key, blockSize), blockTable);
      }
      ok := true;
    }

    /** A new leaf is evictable; its parent no longer is. */
    method ListLeaf(parent: int, leaf: int)
      requires lru.Valid() && parent in nodes && leaf in nodes && leaf >= 0 && leaf !in lru.list && leaf !in Without(lru.list, parent)
      modifies this`evictableBlocks, lru
      ensures lru.Valid() && lru.list == (if parent in old(lru.list) then Without(old(lru.list), parent) else old(lru.list)) + [leaf]
      ensures evictableBlocks == old(evictableBlocks) - (if parent in old(lru.list) then |nodes[parent].blockTable| else 0) + |nodes[leaf].blockTable|
    {
      hide L.Spells, Without;
      var done;
      if parent in lru.inLru {
        evictableBlocks := evictableBlocks - |nodes[parent].blockTable|;
        done := lru.Remove(parent);
      }
      done := lru.PushBack(leaf);
      evictableBlocks := evictableBlocks + |nodes[leaf].blockTable|;
    }

    /** The lookup stopped inside the segment of `now`, after `k` whole blocks and `o` tokens. */
    method InsertInside(tokens: seq<Token>, blockTable: seq<nat>, bm: B.BlockManager, now: int, matched: nat, k: nat, ghost o: nat)
      returns (ok: bool, node: int)
      requires Valid() && bm.Valid() && now in nodes && now in tree.nodes
      requires var (x, y) := (Chunks(tokens, blockSize), tree.nodes[now]);
        && |x| <= |blockTable| && k < |y.key| && o < blockSize && 0 <= y.Start()
        && Find(tree, x) == (now, y.Start() + k) && Compares(y, x, y.Start(), k, o)
        && matched == Len(y.Start() + k, blockSize) + o
      requires forall i :: 0 <= i < |blockTable| ==> Allocated(bm.State(), blockTable[i])
      modifies this, lru, bm.refCnt
      ensures bm.Valid() && Inserted(old(tree), tokens, blockTable, ok, node)
      ensures bm.State() == Ref(old(bm.State()), NewBlocks(old(tree), tokens, blockTable)).1
    {
      hide LruOk, Rep, L.Spells, Shape, Chunks, Total, Matched, Find, Len, Compares, PathBlocks, Split, AddLeaf, FitsLeaf;
      hide Ref, PoolOk, B.Linked, B.Chain, RadixInsertEvict.Insert, DivergesMidBlock, Known, Blk, Off, OnPath, Allocated;
      ghost var t, x := tree, Chunks(tokens, blockSize);
      ghost var len := t.nodes[now].Start() + k;
      InsertCuts(t, x, blockTable, now, k, o);
      RepAt(nodes, t, blockSize, now);
      WholeCut(nodes[now].key, |t.nodes[now].key|, k, blockSize);
      var split;
      split, node := SplitNode(now, k * blockSize);
      RepKeys(nodes, tree, blockSize);
      var total := Total(tokens, blockSize);
      AlignedChunks(tokens, 0, blockSize);
      if matched == total {
        Aligned(len, |x|, o, blockSize);
        RefNone(bm.State(), blockTable[|x|..|x|]);
        return true, node;
      }
      UsedUp(t.nodes[now], x, t.nodes[now].Start(), k, o);
      LeafTokens(tokens, blockSize, len, o, matched);
      var from, to := Blk(matched, blockSize), Blk(total, blockSize);
      var cut := if floored then Len(from, blockSize) else matched;
      LeafTokens(tokens, blockSize, len, if floored then 0 else o, cut);
      RefSlice(bm.State(), blockTable, from, to);
      LeafPath(tree, node, x[len..], blockTable[len..|x|]);
      ok, node := AttachLeaf(node, tokens[cut..total], blockTable[from..to], bm);
    }

    /** The lookup used up the segment of `now` and found no child. */
    method InsertBelow(tokens: seq<Token>, blockTable: seq<nat>, bm: B.BlockManager, now: int, matched: nat)
      returns (ok: bool, node: int)
      requires Valid() && bm.Valid() && now in nodes && now in tree.nodes
      requires var (x, y) := (Chunks(tokens, blockSize), tree.nodes[now]);
        && |y.path| < |x| <= |blockTable| && Find(tree, x) == (now, |y.path|) && matched == Len(|y.path|, blockSize)
      requires forall i :: 0 <= i < |blockTable| ==> Allocated(bm.State(), blockTable[i])
      modifies this, lru, bm.refCnt
      ensures bm.Valid() && Inserted(old(tree), tokens, blockTable, ok, node)
      ensures bm.State() == Ref(old(bm.State()), NewBlocks(old(tree), tokens, blockTable)).1
    {
      hide LruOk, Rep, L.Spells, Shape, Chunks, Total, Matched, Find, Len, PathBlocks, AddLeaf, FitsLeaf;
      hide Ref, PoolOk, B.Linked, B.Chain, RadixInsertEvict.Insert, DivergesMidBlock, Known, Blk, Off, Allocated;
      ghost var t, x := tree, Chunks(tokens, blockSize);
      ghost var len := |t.nodes[now].path|;
      InsertHangs(t, x, blockTable, now, len);
      LeafTokens(tokens, blockSize, len, 0, matched);
      var total := Total(tokens, blockSize);
      var from, to := Blk(matched, blockSize), Blk(total, blockSize);
      RefSlice(bm.State(), blockTable, from, to);
      LeafPath(t, now, x[len..], blockTable[len..|x|]);
      ok, node := AttachLeaf(now, tokens[matched..total], blockTable[from..to], bm);
    }

    /** The blocks `insert` records: those of the prefixes not yet in the tree. */
    ghost function NewBlocks(t: Tree, tokens: seq<Token>, blockTable: seq<nat>): seq<nat>
      requires blockSize > 0 && Shape(t) && |Chunks(tokens, blockSize)| <= |blockTable|
    {
      blockTable[Known(t, Chunks(tokens, blockSize))..|Chunks(tokens, blockSize)|]
    }

    /** What `insert` leaves, in both cases. */
    ghost predicate Inserted(t: Tree, tokens: seq<Token>, blockTable: seq<nat>, ok: bool, node: int)
      reads this, lru
      requires blockSize > 0 && Shape(t) && |Chunks(tokens, blockSize)| <= |blockTable|
    {
      var x := Chunks(tokens, blockSize);
      var broken := DivergesMidBlock(t, x) && !floored;
      && node in nodes
      && (!broken ==>
            && ok && Valid() && tree == RadixInsertEvict.Insert(t, x, blockTable)
            && node in tree.nodes && tree.nodes[node].path == x)
      && (broken ==>
            var leaf := nodes[node];
            && Len(|leaf.blockTable|, blockSize) - blockSize < |leaf.key| < Len(|leaf.blockTable|, blockSize)
            && ok == (|leaf.key| >= blockSize))
    }

    lemma InsertedNode(t: Tree, tokens: seq<Token>, blockTable: seq<nat>, ok: bool, node: int)
      requires blockSize > 0 && Shape(t) && |Chunks(tokens, blockSize)| <= |blockTable| && Inserted(t, tokens, blockTable, ok, node)
      ensures node in nodes
      ensures floored || !DivergesMidBlock(t, Chunks(tokens, blockSize)) ==>
        Valid() && tree == RadixInsertEvict.Insert(t, Chunks(tokens, blockSize), blockTable)
    {
      hide LruOk, Rep, L.Spells, Shape, Chunks, DivergesMidBlock, RadixInsertEvict.Insert;
    }

    /** A part-block leaf shows in its own key. */
    lemma InsertedWhole(t: Tree, tokens: seq<Token>, blockTable: seq<nat>, ok: bool, node: int)
      requires blockSize > 0 && Shape(t) && |Chunks(tokens, blockSize)| <= |blockTable| && Inserted(t, tokens, blockTable, ok, node)
      ensures Whole(nodes[node], blockSize) <==> floored || !DivergesMidBlock(t, Chunks(tokens, blockSize))
    {
      hide LruOk, Rep, L.Spells, Shape, Chunks, Len, DivergesMidBlock, RadixInsertEvict.Insert;
      if floored || !DivergesMidBlock(t, Chunks(tokens, blockSize)) {
        RepWhole(nodes, tree, blockSize, node);
      }
    }

    /**
     `insert`. When the lookup does not stop inside a block, or leaves are cut at block boundaries, the
     tree gains exactly the missing part of the sequence and one reference is taken on each of its
     blocks. Otherwise the new leaf is cut at the first differing token: its key is not whole blocks
     and falls short of its block table, and `ok` says whether the fork key could still be read.
     */
    method Insert(tokens: seq<Token>, blockTable: seq<nat>, bm: B.BlockManager) returns (ok: bool, node: int)
      requires Valid() && bm.Valid() && |Chunks(tokens, blockSize)| <= |blockTable|
      requires forall i :: 0 <= i < |blockTable| ==> Allocated(bm.State(), blockTable[i])
      modifies this, lru, bm.refCnt
      ensures bm.Valid() && Inserted(old(tree), tokens, blockTable, ok, node)
      ensures bm.State() == Ref(old(bm.State()), NewBlocks(old(tree), tokens, blockTable)).1
    {
      hide LruOk, Rep, L.Spells, Shape, Chunks, Total, Here, Matched, Find, Len, Compares, PathBlocks, Split, AddLeaf, FitsLeaf;
      hide Ref, PoolOk, B.Linked, B.Chain, RadixInsertEvict.Insert, DivergesMidBlock, Known, Blk, Off, OnPath, Allocated;
      ghost var t, x, blocks := tree, Chunks(tokens, blockSize), [];
      RepKeys(nodes, t, blockSize);
      HereStart(t, x);
      AlignedChunks(tokens, 0, blockSize);
      LenNext(0, blockSize);
      var total := Total(tokens, blockSize);
      var matched, now := 0, ROOT;
      while true
        invariant Valid() && tree == t && now in t.nodes && Here(t, x, now, blocks)
        invariant bm.Valid() && bm.State() == old(bm.State())
        invariant 0 <= t.nodes[now].Start() <= |x| && matched == Len(t.nodes[now].Start(), blockSize) <= total
        decreases |x| - t.nodes[now].Start(), if now == ROOT then 1 else 0
      {
        RepKeys(nodes, t, blockSize);
        var mKey, k, o := Visit(now, tokens, matched, total);
        matched := matched + mKey;
        if mKey < |nodes[now].key| {
          StopsHere(t, x, now, blocks, k, o);
          ok, node := InsertInside(tokens, blockTable, bm, now, matched, k, o);
          return;
        }
        if matched == total {
          StopsHere(t, x, now, blocks, k, o);
          WholeSegment(t.nodes[now], x, t.nodes[now].Start(), k, o);
          PathEnd(t, now);
          InsertHangs(t, x, blockTable, now, |x|);
          RefNone(bm.State(), blockTable[|x|..|x|]);
          return true, now;
        }
        ghost var at := t.nodes[now].Start();
        WholeSegment(t.nodes[now], x, at, k, o);
        NextFork(tokens, blockSize, at + k);
        var firstBlock := tokens[matched..matched + blockSize];
        if firstBlock !in nodes[now].children {
          StopsHere(t, x, now, blocks, k, o);
          PathEnd(t, now);
          ok, node := InsertBelow(tokens, blockTable, bm, now, matched);
          return;
        }
        GoesDown(t, x, now, blocks, k, o);
        blocks := blocks + t.nodes[now].blocks[..k];
        now := nodes[now].children[firstBlock];
      }
    }

    /** `_delete_leaf` of a node that is off the eviction list. */
    method DeleteLeaf(node: int, bm: B.BlockManager)
      requires lru.Valid() && bm.Valid() && blockSize > 0
      requires node in nodes && |nodes[node].key| >= blockSize && nodes[node].parent in nodes
      requires node !in lru.inLru
      modifies this`nodes, bm, bm.refCnt, bm.prevFree, bm.nextFree
      ensures bm.Valid() && bm.State() == Free(old(bm.State()), old(nodes)[node].blockTable).1
      ensures nodes == Detached(old(nodes), node, blockSize)
    {
      hide Free, PoolOk, B.Linked, B.Chain;
      var x := nodes[node];
      var firstBlock := x.key[..blockSize];
      var p := nodes[x.parent];
      nodes := nodes[x.parent := p.(children := p.children - {firstBlock})];
      var done := bm.FreeBlocks(x.blockTable);
      nodes := nodes - {node};
    }

    /** One round of `evict`. */
    method EvictLeaf(bm: B.BlockManager) returns (freed: int)
      requires Valid() && bm.Valid() && tree.lru != []
      modifies this, lru, bm, bm.refCnt, bm.prevFree, bm.nextFree
      ensures Valid() && bm.Valid()
      ensures old(tree).lru[0] in old(tree).nodes && tree == EvictOne(old(tree))
      ensures var own := old(tree).nodes[old(tree).lru[0]].blocks;
        freed == |own| && bm.State() == Free(old(bm.State()), own).1
    {
      hide LruOk, Rep, L.Spells, Shape, Chunks, Len, Free, PoolOk, B.Linked, B.Chain, Evictable, Anc, EvictOne;
      ghost var t := tree;
      RepKeys(nodes, t, blockSize);
      LeafReady(nodes, t, blockSize);
      EvictShape(t);
      EvictLru(t);
      var got, node := lru.PopFront();
      var parent := nodes[node].parent;
      evictableBlocks := evictableBlocks - |nodes[node].blockTable|;
      freed := |nodes[node].blockTable|;
      DeleteLeaf(node, bm);
      if parent != ROOT && nodes[parent].children == map[] && nodes[parent].lockRef == 0 && parent !in lru.inLru {
        var done := lru.PushBack(parent);
        evictableBlocks := evictableBlocks + |nodes[parent].blockTable|;
      }
      tree := EvictOne(t);
    }

    /** `evict`: oldest leaves first until enough blocks are handed back or none is left. */
    method Evict(needBlocks: int, bm: B.BlockManager) returns (freed: int)
      requires Valid() && bm.Valid()
      requires Free(bm.State(), RadixInsertEvict.Evict(tree, needBlocks).1).0
      modifies this, lru, bm, bm.refCnt, bm.prevFree, bm.nextFree
      ensures Valid() && bm.Valid()
      ensures var (u, blocks) := RadixInsertEvict.Evict(old(tree), needBlocks);
        tree == u && freed == |blocks| && bm.State() == Free(old(bm.State()), blocks).1
    {
      hide LruOk, Rep, L.Spells, Shape, Chunks, Len, Free, PoolOk, B.Linked, B.Chain, RadixInsertEvict.Evict, EvictOne;
      ghost var t, p, gone := tree, bm.State(), [];
      freed := 0;
      var empty := lru.Empty();
      FreeNone(p);
      EvictStart(t, needBlocks);
      while freed < needBlocks && !empty
        invariant Valid() && bm.Valid() && empty == (tree.lru == []) && freed == |gone|
        invariant Free(p, gone) == (true, bm.State())
        invariant Shape(t) && LruOk(t)
        invariant RadixInsertEvict.Evict(t, needBlocks)
          == (RadixInsertEvict.Evict(tree, needBlocks - freed).0, gone + RadixInsertEvict.Evict(tree, needBlocks - freed).1)
        decreases |tree.nodes|
      {
        EvictMore(tree, needBlocks - freed);
        ghost var own := tree.nodes[tree.lru[0]].blocks;
        ghost var rest := RadixInsertEvict.Evict(EvictOne(tree), needBlocks - freed - |own|).1;
        EvictShrinks(tree);
        assert gone + (own + rest) == (gone + own) + rest;
        FreeConcat(p, gone, own + rest);
        FreeConcat(bm.State(), own, rest);
        FreeConcat(p, gone, own);
        var more := EvictLeaf(bm);
        freed := freed + more;
        gone := gone + own;
        empty := lru.Empty();
      }
      EvictDone(tree, needBlocks - freed);
      assert gone + [] == gone;
    }

    /** `inc_lock_ref`: pin a node and all its ancestors. */
    method IncLockRef(node: int)
      requires Valid() && node in nodes && forall n :: n in tree.nodes ==> tree.nodes[n].lock >= 0
      modifies this, lru
      ensures Valid() && node in old(tree).nodes && tree == Pin(old(tree), node)
    {
      hide LruOk, Rep, L.Spells, Shape, Anc, Evictable, Shift, Without, Shifted, UpOk, Chunks;
      ghost var t := tree;
      RepKeys(nodes, t, blockSize);
      ShiftedStart(nodes, t, node, 1);
      Listed(t, node);
      var now := node;
      while now != NIL
        invariant now == NIL || (now in t.nodes && Anc(t, now, node))
        invariant lru.Valid() && tree == t && nextId == t.next
        invariant Shifted(old(nodes), nodes, t, node, now, 1)
        invariant now == node ==> lru.list == t.lru && evictableBlocks == t.evictable
        invariant now != node ==> lru.list == Pin(t, node).lru && evictableBlocks == Pin(t, node).evictable
        decreases if now == NIL then 0 else |t.nodes[now].path| + 1
      {
        ShiftedStep(old(nodes), nodes, t, node, now, 1);
        RepAt(old(nodes), t, blockSize, now);
        Listed(t, now);
        if now != node { AncestorNotListed(t, now, node); }
        var was := nodes[now].lockRef;
        nodes := nodes[now := nodes[now].(lockRef := was + 1)];
        if was == 0 && now in lru.inLru {
          evictableBlocks := evictableBlocks - |nodes[now].blockTable|;
          var done := lru.Remove(now);
        }
        Shorter(t, now);
        now := nodes[now].parent;
      }
      PinList(t, node);
      ShiftShape(t, node, 1, Pin(t, node));
      ShiftedRep(old(nodes), nodes, t, node, 1, Pin(t, node), blockSize);
      tree := Pin(t, node);
    }

    /** `dec_lock_ref`: the reverse; a leaf whose last pin goes joins the eviction list at the recent end. */
    method DecLockRef(node: int)
      requires Valid() && node in nodes && tree.nodes[node].lock > (if node == ROOT then 1 else 0)
      modifies this, lru
      ensures Valid() && node in old(tree).nodes && tree == Unpin(old(tree), node)
    {
      hide LruOk, Rep, L.Spells, Shape, Anc, Evictable, Shift, Without, Shifted, UpOk, Chunks;
      ghost var t := tree;
      RepKeys(nodes, t, blockSize);
      ShiftedStart(nodes, t, node, -1);
      Listed(t, node);
      var now := node;
      while now != NIL
        invariant now == NIL || (now in t.nodes && Anc(t, now, node))
        invariant lru.Valid() && tree == t && nextId == t.next
        invariant Shifted(old(nodes), nodes, t, node, now, -1)
        invariant now == node ==> lru.list == t.lru && evictableBlocks == t.evictable
        invariant now != node ==> lru.list == Unpin(t, node).lru && evictableBlocks == Unpin(t, node).evictable
        decreases if now == NIL then 0 else |t.nodes[now].path| + 1
      {
        ShiftedStep(old(nodes), nodes, t, node, now, -1);
        RepAt(old(nodes), t, blockSize, now);
        Listed(t, now);
        if now != node {
          AncestorNotListed(t, now, node);
          if now == ROOT { RootHasChildren(t, node); }
        }
        nodes := nodes[now := nodes[now].(lockRef := nodes[now].lockRef - 1)];
        if nodes[now].lockRef == 0 && now !in lru.inLru && nodes[now].children == map[] {
          var done := lru.PushBack(now);
          evictableBlocks := evictableBlocks + |nodes[now].blockTable|;
        }
        Shorter(t, now);
        now := nodes[now].parent;
      }
      UnpinList(t, node);
      ShiftShape(t, node, -1, Unpin(t, node));
      ShiftedRep(old(nodes), nodes, t, node, -1, Unpin(t, node), blockSize);
      tree := Unpin(t, node);
    }
  }

  lemma Listed(t: Tree, n: int)
    requires Shape(t) && LruOk(t) && n in t.nodes
    ensures n in t.lru ==> t.nodes[n].lock == 0
    ensures n >= 0
  {
    assert n in t.lru <==> Evictable(t, n);
  }

  /** Paths get shorter going up. */
  lemma Shorter(t: Tree, n: int)
    requires Shape(t) && n in t.nodes
    ensures n == ROOT ==> t.nodes[n].parent == NIL
    ensures n != ROOT ==> t.nodes[n].parent in t.nodes && |t.nodes[t.nodes[n].parent].path| < |t.nodes[n].path|
    ensures t.nodes[n].parent != n
  {
    if n != ROOT { Up(t, n); }
  }

  lemma SplitCounts(t: Tree, c: int, k: nat)
    requires Shape(t) && c in t.nodes && c != ROOT && 0 < k < |t.nodes[c].key|
    ensures var u := Split(t, c, k);
      u.lru == t.lru && u.next == t.next + 1 && u.evictable == if c in t.lru then t.evictable - k else t.evictable
  {}

  lemma SplitLength(len: nat, n: nat, splitLen: int, bs: nat)
    requires bs > 0 && len == Len(n, bs) && 0 < splitLen && Off(splitLen, bs) == 0 && len - splitLen >= bs
    ensures 0 < Blk(splitLen, bs) < n && splitLen == Blk(splitLen, bs) * bs
  {
    DivBounds(splitLen, bs);
    MulCancel(splitLen / bs + 1, n, bs);
  }
}
