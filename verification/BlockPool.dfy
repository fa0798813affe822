/**
 The block manager: reference counts and an intrusive doubly linked free list between two
 sentinels, all updated in place, over one flat pool laid out layer by layer.
 */
module BlockPool {
  import opened Basics
  import opened Tokens
  import opened PoolSpec

  /** A link that points nowhere. */
  const NIL: int := -1

  // ---------------------------------------------------------------- links as values

  /** Consecutive members of `c` point at each other. */
  ghost predicate Linked(next: seq<int>, prev: seq<int>, c: seq<int>) {
    && |next| == |prev|
    && (forall i :: 0 <= i < |c| ==> 0 <= c[i] < |next|)
    && (forall i, j :: 0 <= i < j < |c| ==> c[i] != c[j])
    && (forall i {:trigger next[c[i]]} :: 0 <= i < |c| - 1 ==> next[c[i]] == c[i + 1])
    && (forall i {:trigger prev[c[i]]} :: 0 < i < |c| ==> prev[c[i]] == c[i - 1])
  }

  /** Unlinking the second member. */
  lemma LinkedPop(next: seq<int>, prev: seq<int>, c: seq<int>)
    requires Linked(next, prev, c) && |c| >= 3
    ensures next[c[0]] == c[1] && next[c[1]] == c[2]
    ensures Linked(next[c[0] := c[2]][c[1] := NIL], prev[c[2] := c[0]][c[1] := NIL], [c[0]] + c[2..])
  {
    var d := [c[0]] + c[2..];
    assert forall i :: 1 <= i < |d| ==> d[i] == c[i + 1];
  }

  /** Linking `x` in after the first member. */
  lemma LinkedPush(next: seq<int>, prev: seq<int>, c: seq<int>, x: int)
    requires Linked(next, prev, c) && |c| >= 2 && 0 <= x < |next| && x !in c
    ensures next[c[0]] == c[1]
    ensures Linked(next[x := c[1]][c[0] := x], prev[c[1] := x][x := c[0]], [c[0], x] + c[1..])
  {
    var d := [c[0], x] + c[1..];
    assert forall i :: 2 <= i < |d| ==> d[i] == c[i - 1];
  }

  /** The chain through the sentinels of a pool of `n` blocks. */
  function Chain(n: nat, free: seq<nat>): (c: seq<int>)
    ensures |c| == |free| + 2
  {
    [n] + seq(|free|, i requires 0 <= i < |free| => free[i]) + [n + 1]
  }

  lemma ChainEmpty(n: nat, free: seq<nat>)
    requires forall i :: 0 <= i < |free| ==> free[i] < n
    ensures Chain(n, free)[1] == n + 1 <==> free == []
  {}

  lemma ChainPop(n: nat, free: seq<nat>)
    requires free != []
    ensures Chain(n, free)[1] == free[0]
    ensures Chain(n, free[1..]) == [Chain(n, free)[0]] + Chain(n, free)[2..]
  {}

  lemma ChainPush(n: nat, free: seq<nat>, b: nat)
    ensures Chain(n, [b] + free) == [Chain(n, free)[0], b] + Chain(n, free)[1..]
  {}

  // ---------------------------------------------------------------- the flat pool

  /** Size of the pool: `[layers, blocks, block bytes]`, row-major. */
  function PoolSize(layers: nat, blocks: nat, blockBytes: nat): nat {
    layers * LayerStride(blocks, blockBytes)
  }

  function LayerStride(blocks: nat, blockBytes: nat): nat {
    blocks * blockBytes
  }

  // ---------------------------------------------------------------- the manager

  class BlockManager {
    const numBlocks: nat
    const blockSize: nat
    const blockBytes: nat
    const numLayers: nat
    const refCnt: array<nat>
    /** One entry per block, then the head sentinel, then the tail sentinel. */
    const prevFree: array<int>
    const nextFree: array<int>
    /** All layers' blocks, layer outermost. */
    const kvPool: array<int>
    var numAllocated: int
    /** The free blocks, top of the stack first. */
    ghost var free: seq<nat>

    /** The pool as a value. */
    ghost function State(): Pool
      reads this, refCnt
    {
      Pool(refCnt[..], free)
    }

    ghost predicate Valid()
      reads this, refCnt, prevFree, nextFree
    {
      && blockSize > 0 && numLayers > 0
      && refCnt.Length == numBlocks && prevFree.Length == nextFree.Length == numBlocks + 2
      && prevFree != nextFree && kvPool != prevFree && kvPool != nextFree
      && kvPool.Length == PoolSize(numLayers, numBlocks, blockBytes)
      && PoolOk(State())
      && Linked(nextFree[..], prevFree[..], Chain(numBlocks, free))
      && numAllocated == numBlocks - |free|
    }

    /** Facts of `Valid` that do not need the links. */
    lemma Basics()
      requires Valid()
      ensures refCnt.Length == numBlocks && PoolOk(State()) && |free| == numBlocks - numAllocated
    {}

    constructor (numBlocks: nat, blockSize: nat, kvSlotBytes: nat, numLayers: nat)
      requires blockSize > 0 && kvSlotBytes > 0 && numLayers > 0
      ensures Valid() && State() == NewPool(numBlocks)
      ensures this.numBlocks == numBlocks && this.blockSize == blockSize && this.numLayers == numLayers
      ensures blockBytes == blockSize * kvSlotBytes
      ensures fresh(refCnt) && fresh(prevFree) && fresh(nextFree) && fresh(kvPool)
    {
      this.numBlocks := numBlocks;
      this.blockSize := blockSize;
      hide PoolSize, Linked, PoolOk;
      var bytes: nat := blockSize * kvSlotBytes;
      this.blockBytes := bytes;
      this.numLayers := numLayers;
      refCnt := new nat[numBlocks];
      prevFree := new int[numBlocks + 2];
      nextFree := new int[numBlocks + 2];
      kvPool := new int[PoolSize(numLayers, numBlocks, bytes)];
      numAllocated := 0;
      free := NewPool(numBlocks).free;
      new;
      var i := 0;
      while i < numBlocks
        invariant 0 <= i <= numBlocks
        modifies refCnt, prevFree, nextFree
        invariant forall b :: 0 <= b < i ==> refCnt[b] == 0
        invariant forall b :: 0 <= b < i ==> prevFree[b] == if b == 0 then numBlocks else b - 1
        invariant forall b :: 0 <= b < i ==> nextFree[b] == if b == numBlocks - 1 then numBlocks + 1 else b + 1
      {
        refCnt[i] := 0;
        prevFree[i] := if i == 0 then numBlocks else i - 1;
        nextFree[i] := if i == numBlocks - 1 then numBlocks + 1 else i + 1;
        i := i + 1;
      }
      nextFree[numBlocks] := if numBlocks == 0 then numBlocks + 1 else 0;
      prevFree[numBlocks + 1] := if numBlocks == 0 then numBlocks else numBlocks - 1;
      prevFree[numBlocks] := NIL;
      nextFree[numBlocks + 1] := NIL;
      NewPoolOk(numBlocks);
      assert refCnt[..] == NewPool(numBlocks).ref;
      NewChain(numBlocks, nextFree[..], prevFree[..]);
    }

    /** `num_free` is the length of the free list. */
    method NumFree() returns (n: int)
      requires Valid()
      ensures n == |State().free|
    {
      n := numBlocks - numAllocated;
    }

    /** Detach the top of the stack; `NIL` when there is none. */
    method PopFreeHead() returns (id: int)
      requires Valid()
      modifies this, refCnt, prevFree, nextFree
      ensures Valid()
      ensures old(free) == [] ==> id == NIL && State() == old(State())
      ensures old(free) != [] ==> id == old(free)[0] && State() == Alloc(old(State()), 1)
    {
      ghost var c := Chain(numBlocks, free);
      var head, tail := numBlocks, numBlocks + 1;
      id := nextFree[head];
      assert nextFree[..][c[0]] == c[1];
      ChainEmpty(numBlocks, free);
      if id == tail {
        id := NIL;
        return;
      }
      LinkedPop(nextFree[..], prevFree[..], c);
      ChainPop(numBlocks, free);
      prevFree[nextFree[id]] := head;
      nextFree[head] := nextFree[id];
      prevFree[id] := NIL;
      nextFree[id] := NIL;
      refCnt[id] := 1;
      numAllocated := numAllocated + 1;
      free := free[1..];
      AllocKeeps(old(State()), 1);
      assert State() == Alloc(old(State()), 1);
      assert nextFree[..] == old(nextFree[..])[c[0] := c[2]][c[1] := NIL];
      assert prevFree[..] == old(prevFree[..])[c[2] := c[0]][c[1] := NIL];
    }

    /** Put a block whose last reference is gone on top of the stack. */
    method PushFreeHead(b: nat)
      requires Valid() && Allocated(State(), b) && refCnt[b] == 1
      modifies this, refCnt, prevFree, nextFree
      ensures Valid() && State() == Decr(old(State()), b)
    {
      ghost var c := Chain(numBlocks, free);
      var head := numBlocks;
      assert b !in c by { assert forall i :: 0 <= i < |free| ==> c[i + 1] == free[i]; }
      LinkedPush(nextFree[..], prevFree[..], c, b);
      ChainPush(numBlocks, free, b);
      numAllocated := numAllocated - 1;
      prevFree[nextFree[head]] := b;
      nextFree[b] := nextFree[head];
      prevFree[b] := head;
      nextFree[head] := b;
      refCnt[b] := 0;
      free := [b] + free;
      DecrKeeps(old(State()), b);
      assert State() == Decr(old(State()), b);
      assert nextFree[..] == old(nextFree[..])[b := c[1]][c[0] := b];
      assert prevFree[..] == old(prevFree[..])[c[1] := b][b := c[0]];
    }

    /** `alloc`: all or nothing, each block with one reference. */
    method AllocBlocks(num: int) returns (ok: bool, ids: seq<nat>)
      requires Valid()
      modifies this, refCnt, prevFree, nextFree
      ensures Valid()
      ensures ok == (0 <= num <= |old(free)|)
      ensures !ok ==> State() == old(State()) && ids == []
      ensures ok ==> ids == old(free)[..num] && State() == Alloc(old(State()), num)
    {
      hide Valid, PoolOk, Linked, Alloc;
      ids := [];
      var avail := NumFree();
      Basics();
      if num < 0 || avail < num {
        return false, [];
      }
      ghost var was := State();
      var left := num;
      AllocZero(was);
      while left > 0
        invariant 0 <= left <= num <= |was.free|
        invariant Valid() && State() == Alloc(was, num - left) && ids == was.free[..num - left]
      {
        AllocSucc(was, num - left);
        Basics();
        var id := PopFreeHead();
        ids := ids + [id];
        left := left - 1;
      }
      ok := true;
    }

    /** One reference less; the last one puts the block back. */
    method FreeOne(b: nat) returns (ok: bool)
      requires Valid()
      modifies this, refCnt, prevFree, nextFree
      ensures Valid() && ok == Allocated(old(State()), b)
      ensures State() == if ok then Decr(old(State()), b) else old(State())
    {
      hide PoolOk, Linked, Chain;
      if b >= numBlocks || refCnt[b] < 1 {
        return false;
      }
      ghost var before := State();
      if refCnt[b] == 1 {
        PushFreeHead(b);
      } else {
        DecrKeeps(before, b);
        refCnt[b] := refCnt[b] - 1;
        assert refCnt[..] == before.ref[b := before.ref[b] - 1];
      }
      ok := true;
    }

    /** `free`: drop one reference per id, in order; stops at an id that is not allocated. */
    method FreeBlocks(ids: seq<nat>) returns (ok: bool)
      requires Valid()
      modifies this, refCnt, prevFree, nextFree
      ensures Valid() && (ok, State()) == Free(old(State()), ids)
    {
      hide PoolOk, Linked, Chain;
      hide Valid;
      var i := 0;
      ghost var was := State();
      while i < |ids|
        invariant 0 <= i <= |ids| && Valid()
        invariant Free(was, ids) == Free(State(), ids[i..])
      {
        assert ids[i..][1..] == ids[i + 1..];
        ok := FreeOne(ids[i]);
        if !ok {
          return;
        }
        i := i + 1;
      }
      assert ids[i..] == [];
      ok := true;
    }

    method RefBlock(b: nat) returns (ok: bool)
      requires Valid()
      modifies refCnt
      ensures Valid() && ok == Allocated(old(State()), b)
      ensures State() == if ok then old(State()).(ref := old(State()).ref[b := old(State()).ref[b] + 1]) else old(State())
    {
      hide PoolOk, Linked, Chain;
      if b >= numBlocks || refCnt[b] < 1 {
        return false;
      }
      ghost var before := State();
      refCnt[b] := refCnt[b] + 1;
      RefOne(before, b);
      assert refCnt[..] == before.ref[b := before.ref[b] + 1];
      ok := true;
    }

    /** `ref`: add one reference per id, in order; stops at an id that is not allocated. */
    method RefBlocks(ids: seq<nat>) returns (ok: bool)
      requires Valid()
      modifies refCnt
      ensures Valid() && (ok, State()) == Ref(old(State()), ids)
    {
      hide Valid, PoolOk;
      var i := 0;
      ghost var was := State();
      while i < |ids|
        invariant 0 <= i <= |ids| && Valid()
        invariant Ref(was, ids) == Ref(State(), ids[i..])
      {
        assert ids[i..][1..] == ids[i + 1..];
        ok := RefBlock(ids[i]);
        if !ok {
          return;
        }
        i := i + 1;
      }
      assert ids[i..] == [];
      ok := true;
    }

    /** `fork`: the same table, one more reference on every block. */
    method Fork(src: seq<nat>) returns (ok: bool, table: seq<nat>)
      requires Valid()
      modifies refCnt
      ensures Valid() && (ok, State()) == Ref(old(State()), src) && table == src
    {
      ok := RefBlocks(src);
      table := src;
    }

    /** The bytes of block `b` in layer `layer`. */
    ghost function BlockData(layer: nat, b: nat): seq<int>
      reads kvPool
      requires kvPool.Length == PoolSize(numLayers, numBlocks, blockBytes) && layer < numLayers && b < numBlocks
    {
      BlockDataOf(kvPool[..], layer, b)
    }

    ghost function BlockDataOf(pool: seq<int>, layer: nat, b: nat): seq<int>
      requires |pool| == PoolSize(numLayers, numBlocks, blockBytes) && layer < numLayers && b < numBlocks
    {
      BlockInPool(numLayers, numBlocks, blockBytes, layer, b);
      Segment(pool, numBlocks, blockBytes, layer, b)
    }

    /** `cow_copy`: copy a whole block, layer by layer. */
    method CowCopy(src: nat, dst: nat)
      requires kvPool.Length == PoolSize(numLayers, numBlocks, blockBytes) && src < numBlocks && dst < numBlocks
      modifies kvPool
      ensures forall l :: 0 <= l < numLayers ==> BlockData(l, dst) == old(BlockData(l, src))
      ensures forall l, b :: 0 <= l < numLayers && 0 <= b < numBlocks && b != dst ==> BlockData(l, b) == old(BlockData(l, b))
    {
      hide At, PoolSize, Copied, Spliced, Segment;
      ghost var was := kvPool[..];
      CopiedStart(was, numLayers, numBlocks, blockBytes, src, dst);
      var i := 0;
      while i < numLayers
        invariant 0 <= i <= numLayers
        invariant Copied(was, kvPool[..], numLayers, numBlocks, blockBytes, i, src, dst)
      {
        var from, to := At(numBlocks, blockBytes, i, src), At(numBlocks, blockBytes, i, dst);
        BlockInPool(numLayers, numBlocks, blockBytes, i, src);
        BlockInPool(numLayers, numBlocks, blockBytes, i, dst);
        ghost var before := kvPool[..];
        CopyBytes(from, to, blockBytes);
        CopiedStep(was, before, kvPool[..], numLayers, numBlocks, blockBytes, i, src, dst);
        i := i + 1;
      }
      forall l, b | 0 <= l < numLayers && 0 <= b < numBlocks
        ensures BlockData(l, b) == if b == dst then old(BlockData(l, src)) else old(BlockData(l, b))
      {
        CopiedEnd(was, kvPool[..], numLayers, numBlocks, blockBytes, src, dst, l, b);
        assert old(BlockData(l, b)) == BlockDataOf(was, l, b);
        assert old(BlockData(l, src)) == BlockDataOf(was, l, src);
      }
    }

    /** The device copy primitive on one stretch of the pool. */
    method CopyBytes(from: nat, to: nat, len: nat)
      requires from + len <= kvPool.Length && to + len <= kvPool.Length
      modifies kvPool
      ensures kvPool[..] == Spliced(old(kvPool[..]), to, old(kvPool[..]), from, len)
    {
      forall k | 0 <= k < len {
        kvPool[to + k] := kvPool[from + k];
      }
    }

    /**
     `write_block`: a block the caller alone owns, with the same contents in every layer. A shared
     block is replaced by a fresh copy and loses one reference; nothing else changes.
     */
    method WriteBlock(b: nat) returns (ok: bool, id: nat)
      requires Valid()
      modifies this, refCnt, prevFree, nextFree, kvPool
      ensures Valid()
      ensures ok == (Allocated(old(State()), b) && (old(refCnt[..])[b] == 1 || old(free) != []))
      ensures !ok ==> State() == old(State()) && kvPool[..] == old(kvPool[..])
      ensures ok ==> id < numBlocks && State().ref[id] == 1
      ensures ok && old(refCnt[..])[b] == 1 ==> id == b && State() == old(State()) && kvPool[..] == old(kvPool[..])
      ensures ok && old(refCnt[..])[b] > 1 ==>
        && id == old(free)[0] && id != b
        && State() == Unshare(old(State()), b)
        && (forall l :: 0 <= l < numLayers ==> BlockData(l, id) == old(BlockData(l, b)))
        && (forall l, c :: 0 <= l < numLayers && 0 <= c < numBlocks && c != id ==> BlockData(l, c) == old(BlockData(l, c)))
    {
      hide Linked, Chain, Unshare, PoolOk, PoolSize;
      id := b;
      if b >= numBlocks || refCnt[b] < 1 {
        return false, b;
      }
      if refCnt[b] == 1 {
        return true, b;
      }
      var avail := NumFree();
      if avail < 1 {
        return false, b;
      }
      UnshareOk(State(), b);
      id := PopFreeHead();
      refCnt[b] := refCnt[b] - 1;
      UnshareIs(old(State()), State(), b);
      CowCopy(b, id);
      ok := true;
    }
  }

  /** Take a fresh block and give up one reference on `b`. */
  function Unshare(p: Pool, b: nat): Pool
    requires b < |p.ref| && p.ref[b] > 1 && p.free != []
  {
    var q := Alloc(p, 1);
    if q.ref[b] > 0 then q.(ref := q.ref[b := q.ref[b] - 1]) else q
  }

  lemma UnshareOk(p: Pool, b: nat)
    requires PoolOk(p) && b < |p.ref| && p.ref[b] > 1 && p.free != []
    ensures PoolOk(Unshare(p, b)) && Alloc(p, 1).ref[b] == p.ref[b] && p.free[0] != b && p.free[0] < |p.ref|
    ensures Unshare(p, b).ref[p.free[0]] == 1
  {
    AllocKeeps(p, 1);
    var q := Alloc(p, 1);
    assert p.free[..1] == [p.free[0]];
    var u := Unshare(p, b);
    forall c: nat | c < |u.ref| && u.ref[c] == 0 ensures c in u.free { assert q.ref[c] == 0; }
  }

  lemma UnshareIs(p: Pool, u: Pool, b: nat)
    requires PoolOk(p) && b < |p.ref| && p.ref[b] > 1 && p.free != [] && Alloc(p, 1).ref[b] == p.ref[b]
    requires u == Alloc(p, 1).(ref := Alloc(p, 1).ref[b := p.ref[b] - 1])
    ensures u == Unshare(p, b)
  {}

  /** First byte of block `b` in layer `layer`. */
  function At(blocks: nat, bytes: nat, layer: nat, b: nat): nat {
    layer * LayerStride(blocks, bytes) + b * bytes
  }

  ghost function Segment(s: seq<int>, blocks: nat, bytes: nat, l: nat, b: nat): seq<int>
    requires At(blocks, bytes, l, b) + bytes <= |s|
  {
    s[At(blocks, bytes, l, b)..At(blocks, bytes, l, b) + bytes]
  }

  /** The first `n` layers of block `dst` are copies of block `src`; everything else is as before. */
  ghost predicate Copied(was: seq<int>, now: seq<int>, layers: nat, blocks: nat, bytes: nat, n: nat, src: nat, dst: nat) {
    && src < blocks && dst < blocks && n <= layers
    && |now| == |was| == PoolSize(layers, blocks, bytes)
    && forall l, b :: 0 <= l < layers && 0 <= b < blocks ==>
         At(blocks, bytes, l, b) + bytes <= |was|
         && At(blocks, bytes, l, src) + bytes <= |was|
         && Segment(now, blocks, bytes, l, b) == if b == dst && l < n then Segment(was, blocks, bytes, l, src) else Segment(was, blocks, bytes, l, b)
  }

  lemma CopiedStart(was: seq<int>, layers: nat, blocks: nat, bytes: nat, src: nat, dst: nat)
    requires src < blocks && dst < blocks && |was| == PoolSize(layers, blocks, bytes)
    ensures Copied(was, was, layers, blocks, bytes, 0, src, dst)
  {
    hide At, PoolSize;
    forall l, b | 0 <= l < layers && 0 <= b < blocks
      ensures At(blocks, bytes, l, b) + bytes <= |was| && At(blocks, bytes, l, src) + bytes <= |was|
    {
      BlockInPool(layers, blocks, bytes, l, b);
      BlockInPool(layers, blocks, bytes, l, src);
    }
  }

  lemma CopiedEnd(was: seq<int>, now: seq<int>, layers: nat, blocks: nat, bytes: nat, src: nat, dst: nat, l: nat, b: nat)
    requires Copied(was, now, layers, blocks, bytes, layers, src, dst) && l < layers && b < blocks
    ensures At(blocks, bytes, l, b) + bytes <= |was| && At(blocks, bytes, l, src) + bytes <= |was|
    ensures Segment(now, blocks, bytes, l, b) == Segment(was, blocks, bytes, l, if b == dst then src else b)
  {
    hide At, PoolSize, Segment;
  }

  lemma CopiedStep(was: seq<int>, before: seq<int>, now: seq<int>, layers: nat, blocks: nat, bytes: nat, n: nat, src: nat, dst: nat)
    requires Copied(was, before, layers, blocks, bytes, n, src, dst) && n < layers
    requires At(blocks, bytes, n, src) + bytes <= |was| && At(blocks, bytes, n, dst) + bytes <= |was|
    requires now == Spliced(before, At(blocks, bytes, n, dst), before, At(blocks, bytes, n, src), bytes)
    ensures Copied(was, now, layers, blocks, bytes, n + 1, src, dst)
  {
    hide At, PoolSize;
    forall l, b | 0 <= l < layers && 0 <= b < blocks
      ensures At(blocks, bytes, l, b) + bytes <= |was|
      ensures Segment(now, blocks, bytes, l, b)
        == if b == dst && l < n + 1 then Segment(was, blocks, bytes, l, src) else Segment(was, blocks, bytes, l, b)
    {
      var from, to, at := At(blocks, bytes, n, src), At(blocks, bytes, n, dst), At(blocks, bytes, l, b);
      assert Segment(before, blocks, bytes, n, src) == Segment(was, blocks, bytes, n, src);
      if l != n || b != dst {
        BlocksApart(blocks, bytes, l, b, n, dst);
      }
    }
  }

  /** Different blocks, or the same block of different layers, do not overlap. */
  lemma BlocksApart(blocks: nat, bytes: nat, l: nat, b: nat, m: nat, c: nat)
    requires b < blocks && c < blocks && (l != m || b != c)
    ensures At(blocks, bytes, l, b) + bytes <= At(blocks, bytes, m, c) || At(blocks, bytes, m, c) + bytes <= At(blocks, bytes, l, b)
  {
    if l < m { BlockBefore(blocks, bytes, l, b, m, c); }
    else if m < l { BlockBefore(blocks, bytes, m, c, l, b); }
    else if b < c { MulMono(b + 1, c, bytes); }
    else { MulMono(c + 1, b, bytes); }
  }

  lemma BlockBefore(blocks: nat, bytes: nat, l: nat, b: nat, m: nat, c: nat)
    requires b < blocks && l < m
    ensures At(blocks, bytes, l, b) + bytes <= At(blocks, bytes, m, c)
  {
    MulMono(b + 1, blocks, bytes);
    MulMono(l + 1, m, LayerStride(blocks, bytes));
  }

  lemma AllocZero(p: Pool)
    ensures Alloc(p, 0) == p
  {}

  lemma AllocSucc(p: Pool, k: nat)
    requires PoolOk(p) && k < |p.free|
    ensures Alloc(p, k).free != [] && Alloc(p, k).free[0] == p.free[k]
    ensures Alloc(Alloc(p, k), 1) == Alloc(p, k + 1)
    ensures p.free[..k] + [p.free[k]] == p.free[..k + 1]
  {
    hide PoolOk;
    var q := Alloc(p, k);
    assert q.free[..1] == [p.free[k]] && q.free[1..] == p.free[k + 1..];
    assert p.free[..k + 1] == p.free[..k] + [p.free[k]];
    forall b: nat | b < |p.ref| ensures Alloc(q, 1).ref[b] == Alloc(p, k + 1).ref[b] {
      assert b in p.free[..k + 1] <==> b in p.free[..k] || b == p.free[k];
    }
  }

  lemma RefOne(p: Pool, b: nat)
    requires PoolOk(p) && Allocated(p, b)
    ensures PoolOk(p.(ref := p.ref[b := p.ref[b] + 1]))
  {
    var q := p.(ref := p.ref[b := p.ref[b] + 1]);
    forall c: nat | c < |q.ref| && q.ref[c] == 0 ensures c in q.free { assert p.ref[c] == 0; }
  }

  /** A block of a layer lies inside the pool. */
  lemma BlockInPool(layers: nat, blocks: nat, bytes: nat, layer: nat, b: nat)
    requires layer < layers && b < blocks
    ensures At(blocks, bytes, layer, b) + bytes <= PoolSize(layers, blocks, bytes)
  {
    var stride := LayerStride(blocks, bytes);
    assert (b + 1) * bytes <= blocks * bytes;
    assert (layer + 1) * stride <= layers * stride;
  }

  lemma NewChain(n: nat, next: seq<int>, prev: seq<int>)
    requires |next| == |prev| == n + 2
    requires forall b :: 0 <= b < n ==> prev[b] == if b == 0 then n else b - 1
    requires forall b :: 0 <= b < n ==> next[b] == if b == n - 1 then n + 1 else b + 1
    requires next[n] == (if n == 0 then n + 1 else 0) && prev[n + 1] == if n == 0 then n else n - 1
    ensures Linked(next, prev, Chain(n, NewPool(n).free))
  {
    var c := Chain(n, NewPool(n).free);
    assert forall i :: 0 < i < n + 1 ==> c[i] == i - 1;
  }
}