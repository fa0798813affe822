/**
 Insertion and eviction on the radix tree, stated on the prefix map: insertion only adds the
 missing extensions of the inserted sequence, eviction only removes whole unpinned leaves.
 */
module RadixInsertEvict {
  import opened RadixSpec
  import opened RadixUpdate

  /** The tree holds block `b` somewhere. */
  ghost predicate Held(t: Tree, b: nat) {
    exists x :: Entry(t, x, b)
  }

  /** No block is recorded under two prefixes. */
  ghost predicate Injective(t: Tree) {
    forall x, y, b :: Entry(t, x, b) && Entry(t, y, b) ==> x == y
  }

  lemma SamePrefix(t: Tree, x: seq<Chunk>, y: seq<Chunk>, b: nat)
    requires Injective(t) && Entry(t, x, b) && Entry(t, y, b)
    ensures x == y
  {}

  /**
   The lookup stops inside a block: the stored block and the new one agree on some tokens but not
   on all. As written, `insert` then cuts the new leaf in the middle of a block.
   */
  predicate DivergesMidBlock(t: Tree, x: seq<Chunk>)
    requires Shape(t)
  {
    var (n, len) := Find(t, x);
    len < |x| && len < |t.nodes[n].path| && Common(t.nodes[n].path[len], x[len]) > 0
  }

  // ---------------------------------------------------------------- insert

  /** `insert` of the whole-block sequence `x` whose blocks are `bt`. */
  function Insert(t: Tree, x: seq<Chunk>, bt: seq<nat>): Tree
    requires Shape(t) && |x| <= |bt|
  {
    var (n, len) := Find(t, x);
    if len < |t.nodes[n].path| then
      assert n != ROOT;
      Up(t, n);
      var u := Split(t, n, len - t.nodes[n].Start());
      if len == |x| then u else AddLeaf(u, t.next, x[len..], bt[len..|x|])
    else if len == |x| then t
    else AddLeaf(t, n, x[len..], bt[len..|x|])
  }

  /** Number of chunks of `x` already in the tree. */
  function Known(t: Tree, x: seq<Chunk>): (r: nat)
    requires Shape(t)
    ensures r == |Matched(t, x)| && r <= |x|
  {
    var (n, len) := Find(t, x);
    len
  }

  lemma InsertLeafFits(t: Tree, x: seq<Chunk>, bt: seq<nat>)
    requires Shape(t) && |x| <= |bt|
    ensures var (n, len) := Find(t, x);
      len < |x| ==>
        if len < |t.nodes[n].path| then
          UpOk(t, n) && 0 <= t.nodes[n].Start() < len
          && var u := Split(t, n, len - t.nodes[n].Start());
             FitsLeaf(u, t.next, x[len..], bt[len..|x|]) && u.nodes[t.next].path == x[..len]
        else FitsLeaf(t, n, x[len..], bt[len..|x|]) && t.nodes[n].path == x[..len]
  {
    var (n, len) := Find(t, x);
    if len < |x| && len < |t.nodes[n].path| {
      Up(t, n);
      var k := len - t.nodes[n].Start();
      SplitShape(t, n, k);
      SplitFront(t, n, k);
      assert t.nodes[n].path[..len] == x[..len];
    }
  }

  /** Insertion adds the prefixes of `x` beyond the known part, and nothing else. */
  lemma InsertEntry(t: Tree, x: seq<Chunk>, bt: seq<nat>, y: seq<Chunk>, b: nat)
    requires Shape(t) && |x| <= |bt|
    ensures Entry(Insert(t, x, bt), y, b)
      <==> Entry(t, y, b) || (Known(t, x) < |y| && y <= x && bt[|y| - 1] == b)
  {
    hide Entry, Walk, Split, AddLeaf, UpOk;
    var (n, len) := Find(t, x);
    InsertLeafFits(t, x, bt);
    assert x[..len] + x[len..] == x;
    if len < |t.nodes[n].path| {
      Up(t, n);
      var k := len - t.nodes[n].Start();
      var u := Split(t, n, k);
      if Entry(t, y, b) { SplitEntryKept(t, n, k, y, b); }
      if Entry(u, y, b) { SplitEntryOld(t, n, k, y, b); }
      if len < |x| {
        AddLeafEntry(u, t.next, x[len..], bt[len..|x|], y, b);
      }
    } else if len < |x| {
      AddLeafEntry(t, n, x[len..], bt[len..|x|], y, b);
    }
  }

  lemma SplitNotCached(t: Tree, c: int, k: nat, x: seq<Chunk>)
    requires Shape(t) && c in t.nodes && c != ROOT && 0 < k < |t.nodes[c].key|
    ensures Cached(Split(t, c, k), x) ==> Cached(t, x)
  {
    var u := Split(t, c, k);
    if Cached(u, x) {
      var n :| Covers(u, n, x);
      SplitCovers(t, c, k, n, x);
      assert Covers(t, if n == t.next then c else n, x);
    }
  }

  /** Insertion keeps structure, eviction list, counter and every pin. */
  lemma InsertKeeps(t: Tree, x: seq<Chunk>, bt: seq<nat>, hs: seq<int>)
    requires TreeOk(t, hs) && |x| <= |bt|
    ensures TreeOk(Insert(t, x, bt), hs)
  {
    hide Walk, Split, AddLeaf, PinsOk, LruOk, Cached;
    var (n, len) := Find(t, x);
    InsertLeafFits(t, x, bt);
    if len < |x| {
      StopIsLongest(t, x, n, len, len + 1);
      assert x[..len] + x[len..][..1] == x[..len + 1];
    }
    if len < |t.nodes[n].path| {
      Up(t, n);
      var k := len - t.nodes[n].Start();
      var u := Split(t, n, k);
      SplitShape(t, n, k);
      SplitPins(t, n, k, hs);
      SplitLru(t, n, k);
      if len < |x| {
        SplitNotCached(t, n, k, x[..len + 1]);
        LeafKeeps(u, t.next, x[len..], bt[len..|x|], hs);
      }
    } else if len < |x| {
      LeafKeeps(t, n, x[len..], bt[len..|x|], hs);
    }
  }

  lemma LeafKeeps(t: Tree, p: int, key: seq<Chunk>, blocks: seq<nat>, hs: seq<int>)
    requires FitsLeaf(t, p, key, blocks) && TreeOk(t, hs) && !Cached(t, t.nodes[p].path + key[..1])
    ensures TreeOk(AddLeaf(t, p, key, blocks), hs)
  {
    AddLeafShape(t, p, key, blocks);
    AddLeafLru(t, p, key, blocks);
    AddLeafPins(t, p, key, blocks, hs);
  }

  /** The tree with one recorded sequence. */
  lemma InsertFirst(x: seq<Chunk>, bt: seq<nat>)
    requires x != [] && |x| <= |bt|
    ensures Shape(EMPTY) && Find(EMPTY, x) == (ROOT, 0)
    ensures Insert(EMPTY, x, bt)
      == Tree(map[ROOT := Node([], [], [], -1, map[x[0] := 1], 1), 1 := Node(x, x, bt[..|x|], ROOT, map[], 0)], [1], |x|, 2)
    ensures Shape(Insert(EMPTY, x, bt)) && LruOk(Insert(EMPTY, x, bt))
  {
    var t := EMPTY;
    assert x[0..] == x && [] + x == x;
    InsertLeafFits(t, x, bt);
    AddLeafShape(t, ROOT, x, bt[..|x|]);
    assert LruOk(t);
    AddLeafLru(t, ROOT, x, bt[..|x|]);
  }

  /** Mid-block divergence happens: blocks of two tokens, `1 2 3 4` recorded, `1 2 3 5` looked up. */
  lemma MidBlockHappens()
    ensures var t := Insert(EMPTY, [[1, 2], [3, 4]], [0, 1]);
      Shape(t) && DivergesMidBlock(t, [[1, 2], [3, 5]])
  {
    var y: seq<Chunk> := [[1, 2], [3, 4]];
    InsertFirst(y, [0, 1]);
    var t := Insert(EMPTY, y, [0, 1]);
    var x: seq<Chunk> := [[1, 2], [3, 5]];
    hide Shape, LruOk, Walk, Insert, Find;
    assert t.nodes[1].path[1] != x[1] by { assert t.nodes[1].path[1][1] == 4 && x[1][1] == 5; }
    StopsInside(t, x);
    StopUnique(t, x, 1, 1, Find(t, x).0, Find(t, x).1);
    assert [3, 4][0] == [3, 5][0];
  }

  lemma StopsInside(t: Tree, x: seq<Chunk>)
    requires 1 in t.nodes && |t.nodes[1].path| == |t.nodes[1].key| == 2 == |x|
    requires t.nodes[1].path[0] == x[0] && t.nodes[1].path[1] != x[1]
    ensures StopsAt(t, x, 1, 1)
  {
    assert x[..1] == [x[0]] && t.nodes[1].path[..1] == [x[0]];
  }

  /** The blocks `insert` would newly record are new to the tree and pairwise distinct. */
  ghost predicate FreshFor(t: Tree, x: seq<Chunk>, bt: seq<nat>)
    requires Shape(t) && |x| <= |bt|
  {
    && (forall i :: Known(t, x) <= i < |x| ==> !Held(t, bt[i]))
    && (forall i, j :: Known(t, x) <= i < j < |x| ==> bt[i] != bt[j])
  }

  lemma InsertPair(t: Tree, x: seq<Chunk>, bt: seq<nat>, y: seq<Chunk>, z: seq<Chunk>, b: nat)
    requires Shape(t) && |x| <= |bt| && Injective(t) && FreshFor(t, x, bt)
    requires Entry(Insert(t, x, bt), y, b) && Entry(Insert(t, x, bt), z, b)
    ensures y == z
  {
    InsertEntry(t, x, bt, y, b);
    InsertEntry(t, x, bt, z, b);
    if Entry(t, y, b) || Entry(t, z, b) {
      assert Held(t, b);
    } else {
      assert bt[|y| - 1] == bt[|z| - 1];
      assert y == x[..|y|] && z == x[..|z|];
    }
  }

  /** Fresh, pairwise distinct blocks keep the map injective. */
  lemma InsertInjective(t: Tree, x: seq<Chunk>, bt: seq<nat>)
    requires Shape(t) && |x| <= |bt| && Injective(t) && FreshFor(t, x, bt)
    ensures Injective(Insert(t, x, bt))
  {
    forall y, z, b | Entry(Insert(t, x, bt), y, b) && Entry(Insert(t, x, bt), z, b) ensures y == z {
      InsertPair(t, x, bt, y, z, b);
    }
  }

  lemma InsertHeld(t: Tree, x: seq<Chunk>, bt: seq<nat>, b: nat)
    requires Shape(t) && |x| <= |bt|
    ensures Held(Insert(t, x, bt), b) <==> Held(t, b) || b in bt[Known(t, x)..|x|]
  {
    var u := Insert(t, x, bt);
    var k := Known(t, x);
    if Held(u, b) {
      var y :| Entry(u, y, b);
      InsertEntry(t, x, bt, y, b);
      if !Entry(t, y, b) { assert bt[k..|x|][|y| - 1 - k] == b; }
    }
    if b in bt[k..|x|] {
      var i :| 0 <= i < |bt[k..|x|]| && bt[k..|x|][i] == b;
      InsertEntry(t, x, bt, x[..k + i + 1], b);
    }
    if Held(t, b) {
      var y :| Entry(t, y, b);
      InsertEntry(t, x, bt, y, b);
    }
  }

  // ---------------------------------------------------------------- evict

  /** Detach leaf `n`, drop it from the head of the list, and queue its parent if that is now evictable. */
  function EvictOne(t: Tree): Tree
    requires Shape(t) && LruOk(t) && t.lru != []
  {
    var n := t.lru[0];
    assert n in t.lru;
    Up(t, n);
    var x := t.nodes[n];
    var p := t.nodes[x.parent];
    var q := p.(children := p.children - {x.key[0]});
    var cascade := x.parent != ROOT && q.children == map[] && q.lock == 0;
    Tree((t.nodes - {n})[x.parent := q],
         t.lru[1..] + if cascade then [x.parent] else [],
         t.evictable - |x.blocks| + if cascade then |p.blocks| else 0,
         t.next)
  }

  lemma EvictHead(t: Tree)
    requires Shape(t) && LruOk(t) && t.lru != []
    ensures var n := t.lru[0];
      && Evictable(t, n) && UpOk(t, n) && t.nodes[n].parent != n && 0 <= t.nodes[n].Start()
      && EvictOne(t).nodes.Keys == t.nodes.Keys - {n}
  {
    var n := t.lru[0];
    assert n in t.lru;
    Up(t, n);
  }

  lemma EvictUp(t: Tree, m: int)
    requires Shape(t) && LruOk(t) && t.lru != [] && m in EvictOne(t).nodes && m != ROOT
    ensures UpOk(EvictOne(t), m)
  {
    EvictHead(t);
    var n := t.lru[0];
    Up(t, m);
    var r := t.nodes[m].parent;
    if r == n { assert false; }
  }

  lemma EvictDown(t: Tree, m: int, f: Chunk)
    requires Shape(t) && LruOk(t) && t.lru != [] && m in EvictOne(t).nodes && f in EvictOne(t).nodes[m].children
    ensures DownOk(EvictOne(t), m, f)
  {
    EvictHead(t);
    Down(t, m, f);
  }

  lemma EvictShape(t: Tree)
    requires Shape(t) && LruOk(t) && t.lru != []
    ensures Shape(EvictOne(t))
  {
    var u := EvictOne(t);
    EvictHead(t);
    forall m | m in u.nodes && m != ROOT ensures UpOk(u, m) { EvictUp(t, m); }
    forall m, f | m in u.nodes && f in u.nodes[m].children ensures DownOk(u, m, f) { EvictDown(t, m, f); }
  }

  lemma EvictLru(t: Tree)
    requires Shape(t) && LruOk(t) && t.lru != []
    ensures LruOk(EvictOne(t))
  {
    var u := EvictOne(t);
    EvictHead(t);
    var n := t.lru[0];
    var p := t.nodes[n].parent;
    assert t.nodes[n].key[0] in t.nodes[p].children;
    assert p !in t.lru;
    assert t.lru == [n] + t.lru[1..];
    assert forall m :: m in t.lru <==> m == n || m in t.lru[1..];
    assert n !in t.lru[1..];
    forall m ensures m in u.lru <==> Evictable(u, m) {
      assert m in t.lru <==> Evictable(t, m);
    }
    WeightSame(t, u, t.lru[1..]);
    if u.lru == t.lru[1..] + [p] { WeightAppend(u, t.lru[1..], p); } else { assert u.lru == t.lru[1..]; }
  }

  lemma EvictPins(t: Tree, hs: seq<int>)
    requires TreeOk(t, hs) && t.lru != []
    ensures PinsOk(EvictOne(t), hs)
  {
    var u := EvictOne(t);
    EvictHead(t);
    var n := t.lru[0];
    forall i | 0 <= i < |hs| ensures hs[i] in u.nodes {
      if hs[i] == n { PinsPositive(t, hs, n, i); }
    }
    forall m | m in u.nodes
      ensures u.nodes[m].lock == Pins(u, hs, m) + if m == ROOT then 1 else 0
    {
      PinsSame(t, u, hs, m, m);
    }
  }

  /** Evicting one leaf removes exactly the prefixes it covers. */
  lemma EvictEntry(t: Tree, y: seq<Chunk>, b: nat)
    requires Shape(t) && LruOk(t) && t.lru != []
    ensures Entry(EvictOne(t), y, b) <==> Entry(t, y, b) && !Covers(t, t.lru[0], y)
  {
    var u := EvictOne(t);
    EvictHead(t);
    var n := t.lru[0];
    if Entry(u, y, b) {
      var m :| Covers(u, m, y) && EntryAt(u, m, y, b);
      assert Covers(t, m, y) && EntryAt(t, m, y, b);
      if Covers(t, n, y) { CoverUnique(t, n, m, y); }
    }
    if Entry(t, y, b) && !Covers(t, n, y) {
      var m :| Covers(t, m, y) && EntryAt(t, m, y, b);
      assert Covers(u, m, y) && EntryAt(u, m, y, b);
    }
  }

  /** `evict`: the tree left and the blocks handed back, oldest leaves first. */
  function Evict(t: Tree, need: int): (r: (Tree, seq<nat>))
    requires Shape(t) && LruOk(t)
    ensures Shape(r.0) && LruOk(r.0)
    decreases |t.nodes|
  {
    if need <= 0 || t.lru == [] then (t, []) else
      EvictShape(t);
      EvictLru(t);
      EvictHead(t);
      assert EvictOne(t).nodes.Keys < t.nodes.Keys;
      EvictShrinks(t);
      var own := t.nodes[t.lru[0]].blocks;
      var (u, rest) := Evict(EvictOne(t), need - |own|);
      (u, own + rest)
  }

  lemma EvictShrinks(t: Tree)
    requires Shape(t) && LruOk(t) && t.lru != []
    ensures |EvictOne(t).nodes| < |t.nodes|
  {
    EvictHead(t);
    assert |EvictOne(t).nodes.Keys| == |t.nodes.Keys - {t.lru[0]}|;
  }

  lemma {:induction false} EvictKeeps(t: Tree, need: int, hs: seq<int>)
    requires TreeOk(t, hs)
    ensures TreeOk(Evict(t, need).0, hs)
    decreases |t.nodes|
  {
    if need > 0 && t.lru != [] {
      EvictShape(t);
      EvictLru(t);
      EvictPins(t, hs);
      EvictShrinks(t);
      EvictHead(t);
      EvictKeeps(EvictOne(t), need - |t.nodes[t.lru[0]].blocks|, hs);
    }
  }

  /** Every evicted prefix belonged to an unpinned node, and eviction removes nothing else. */
  ghost predicate Unpinned(t: Tree, x: seq<Chunk>) {
    exists n :: Covers(t, n, x) && t.nodes[n].lock == 0
  }

  lemma {:induction false} EvictRemoves(t: Tree, need: int, x: seq<Chunk>, b: nat)
    requires Shape(t) && LruOk(t)
    ensures var (u, freed) := Evict(t, need);
      && (Entry(u, x, b) ==> Entry(t, x, b))
      && (Entry(t, x, b) && !Entry(u, x, b) ==> Unpinned(t, x) && b in freed)
    decreases |t.nodes|
  {
    if need > 0 && t.lru != [] {
      EvictShape(t);
      EvictLru(t);
      EvictShrinks(t);
      EvictHead(t);
      EvictEntry(t, x, b);
      var n := t.lru[0];
      var v := EvictOne(t);
      EvictRemoves(v, need - |t.nodes[n].blocks|, x, b);
      if Entry(t, x, b) && !Entry(v, x, b) {
        var m :| Covers(t, m, x) && EntryAt(t, m, x, b);
        CoverUnique(t, m, n, x);
      } else if Unpinned(v, x) {
        var m :| Covers(v, m, x) && v.nodes[m].lock == 0;
        assert Covers(t, m, x);
      }
    }
  }

  /** One round, and what the rest does. */
  lemma EvictMore(t: Tree, need: int)
    requires Shape(t) && LruOk(t) && need > 0 && t.lru != []
    ensures t.lru[0] in t.nodes && Shape(EvictOne(t)) && LruOk(EvictOne(t)) && |EvictOne(t).nodes| < |t.nodes|
    ensures var (own, v) := (t.nodes[t.lru[0]].blocks, Evict(EvictOne(t), need - |t.nodes[t.lru[0]].blocks|));
      Evict(t, need) == (v.0, own + v.1)
  {
    EvictShape(t);
    EvictLru(t);
    EvictHead(t);
    EvictShrinks(t);
  }

  lemma EvictDone(t: Tree, need: int)
    requires Shape(t) && LruOk(t) && (need <= 0 || t.lru == [])
    ensures Evict(t, need) == (t, [])
  {}

  /** A block of the oldest leaf: where it is recorded. */
  lemma OwnEntry(t: Tree, i: nat) returns (x: seq<Chunk>)
    requires Shape(t) && LruOk(t) && t.lru != [] && t.lru[0] in t.nodes && i < |t.nodes[t.lru[0]].blocks|
    ensures Entry(t, x, t.nodes[t.lru[0]].blocks[i]) && Unpinned(t, x) && Covers(t, t.lru[0], x)
  {
    EvictHead(t);
    var n := t.lru[0];
    x := t.nodes[n].path[..t.nodes[n].Start() + i + 1];
    assert Covers(t, n, x) && EntryAt(t, n, x, t.nodes[n].blocks[i]);
  }

  /** What is unpinned after a round was unpinned before it. */
  lemma UnpinnedBefore(t: Tree, x: seq<Chunk>)
    requires Shape(t) && LruOk(t) && t.lru != [] && Unpinned(EvictOne(t), x)
    ensures Unpinned(t, x)
  {
    EvictHead(t);
    var m :| Covers(EvictOne(t), m, x) && EvictOne(t).nodes[m].lock == 0;
    assert Covers(t, m, x);
  }

  /** Every block handed back was in the map, under an unpinned node, and is gone from it. */
  lemma {:induction false} EvictFreed(t: Tree, need: int, i: nat) returns (x: seq<Chunk>)
    requires Shape(t) && LruOk(t) && Injective(t) && i < |Evict(t, need).1|
    ensures var (u, freed) := Evict(t, need);
      Entry(t, x, freed[i]) && Unpinned(t, x) && !Held(u, freed[i])
    decreases |t.nodes|
  {
    hide Shape, LruOk, EvictOne, Injective, Evict, Entry, Unpinned, Covers;
    if need <= 0 || t.lru == [] {
      EvictDone(t, need);
      assert false;
    }
    EvictMore(t, need);
    EvictInjective(t);
    var own := t.nodes[t.lru[0]].blocks;
    var v := EvictOne(t);
    var (u, freed) := Evict(t, need);
    if i < |own| {
      x := OwnEntry(t, i);
      if Held(u, freed[i]) {
        var y :| Entry(u, y, freed[i]);
        EvictRemoves(v, need - |own|, y, freed[i]);
        EvictEntry(t, y, freed[i]);
        SamePrefix(t, x, y, freed[i]);
        assert false;
      }
    } else {
      x := EvictFreed(v, need - |own|, i - |own|);
      EvictEntry(t, x, freed[i]);
      UnpinnedBefore(t, x);
    }
  }

  lemma EvictInjective(t: Tree)
    requires Shape(t) && LruOk(t) && t.lru != [] && Injective(t)
    ensures Injective(EvictOne(t))
  {
    forall x, y, b | Entry(EvictOne(t), x, b) && Entry(EvictOne(t), y, b) ensures x == y {
      EvictEntry(t, x, b);
      EvictEntry(t, y, b);
    }
  }

  lemma NodeBlocksDistinct(t: Tree, n: int, i: nat, j: nat)
    requires Shape(t) && Injective(t) && n in t.nodes && n != ROOT && i < j < |t.nodes[n].blocks|
    ensures t.nodes[n].blocks[i] != t.nodes[n].blocks[j]
  {
    Up(t, n);
    var x, y := t.nodes[n].path[..t.nodes[n].Start() + i + 1], t.nodes[n].path[..t.nodes[n].Start() + j + 1];
    assert Covers(t, n, x) && EntryAt(t, n, x, t.nodes[n].blocks[i]);
    assert Covers(t, n, y) && EntryAt(t, n, y, t.nodes[n].blocks[j]);
    assert |x| != |y|;
    if t.nodes[n].blocks[i] == t.nodes[n].blocks[j] { SamePrefix(t, x, y, t.nodes[n].blocks[i]); }
  }

  /** No block is handed back twice. */
  lemma {:induction false} EvictFreedDistinct(t: Tree, need: int, i: nat, j: nat)
    requires Shape(t) && LruOk(t) && Injective(t) && i < j < |Evict(t, need).1|
    ensures Evict(t, need).1[i] != Evict(t, need).1[j]
    decreases |t.nodes|
  {
    hide Shape, LruOk, EvictOne, Injective, Evict, Entry, Unpinned, Covers;
    if need <= 0 || t.lru == [] {
      EvictDone(t, need);
      assert false;
    }
    EvictMore(t, need);
    EvictInjective(t);
    var n := t.lru[0];
    var v := EvictOne(t);
    var own := t.nodes[n].blocks;
    var freed := Evict(t, need).1;
    if j < |own| {
      HeadNotRoot(t);
      NodeBlocksDistinct(t, n, i, j);
    } else if i < |own| {
      var x := EvictFreed(v, need - |own|, j - |own|);
      EvictEntry(t, x, freed[j]);
      var y := OwnEntry(t, i);
      if freed[i] == freed[j] { SamePrefix(t, x, y, freed[i]); }
    } else {
      EvictFreedDistinct(v, need - |own|, i - |own|, j - |own|);
    }
  }

  lemma HeadNotRoot(t: Tree)
    requires Shape(t) && LruOk(t) && t.lru != []
    ensures t.lru[0] != ROOT && t.lru[0] >= 0
  {
    EvictHead(t);
  }

  // ---------------------------------------------------------------- completeness of eviction

  /** With an empty eviction list every non-root node is pinned. */
  lemma EmptyListMeansPinned(t: Tree, hs: seq<int>, n: int)
    requires TreeOk(t, hs) && t.lru == [] && n in t.nodes && n != ROOT
    ensures t.nodes[n].lock > 0
  {
    if t.nodes[n].lock <= 0 {
      UnpinnedLeaf(t, hs, n, t.nodes.Keys);
    }
  }

  /** Below an unpinned node there is an evictable leaf; `s` bounds the descent. */
  lemma {:induction false} UnpinnedLeaf(t: Tree, hs: seq<int>, n: int, s: set<int>)
    requires TreeOk(t, hs) && n in t.nodes && n != ROOT && t.nodes[n].lock <= 0
    requires s <= t.nodes.Keys && n in s
    requires forall m :: m in t.nodes && Anc(t, n, m) ==> m in s
    ensures t.lru != []
    decreases |s|
  {
    if f :| f in t.nodes[n].children {
      Down(t, n, f);
      var c := t.nodes[n].children[f];
      Up(t, c);
      LockMonotone(t, hs, n, c);
      assert !Anc(t, c, n);
      assert |s - {n}| < |s|;
      forall m | m in t.nodes && Anc(t, c, m) ensures m in s - {n} {
        assert Anc(t, n, c) && Anc(t, n, m);
      }
      UnpinnedLeaf(t, hs, c, s - {n});
    } else {
      assert t.nodes[n].children == map[];
      assert Evictable(t, n);
      assert n in t.lru;
    }
  }

  /** Blocks in unpinned nodes below the root, among the nodes numbered under `k`. */
  function Loose(t: Tree, k: int): nat
    decreases if k > 0 then k else 0
  {
    if k <= 0 then 0 else
      Loose(t, k - 1) + if k - 1 in t.nodes && k - 1 != ROOT && t.nodes[k - 1].lock <= 0 then |t.nodes[k - 1].blocks| else 0
  }

  lemma {:induction false} LooseOne(t: Tree, k: int)
    requires Shape(t) && LruOk(t) && t.lru != [] && t.lru[0] in t.nodes
    ensures Loose(EvictOne(t), k) == Loose(t, k) - if t.lru[0] < k then |t.nodes[t.lru[0]].blocks| else 0
    decreases if k > 0 then k else 0
  {
    HeadNotRoot(t);
    EvictHead(t);
    EvictOneKeeps(t);
    if k > 0 {
      hide Shape, LruOk, EvictOne;
      LooseOne(t, k - 1);
    }
  }

  lemma {:induction false} LooseNone(t: Tree, k: int)
    requires forall n :: n in t.nodes && n != ROOT ==> t.nodes[n].lock > 0
    ensures Loose(t, k) == 0
    decreases if k > 0 then k else 0
  {
    if k > 0 { LooseNone(t, k - 1); }
  }

  lemma NextSame(t: Tree)
    requires Shape(t) && LruOk(t) && t.lru != []
    ensures EvictOne(t).next == t.next && t.lru[0] < t.next
  {
    EvictHead(t);
  }

  /** The blocks handed back are those of the unpinned nodes that go; too few only when none is left. */
  lemma {:induction false} EvictAmount(t: Tree, need: int, hs: seq<int>)
    requires TreeOk(t, hs)
    ensures var (u, freed) := Evict(t, need);
      && |freed| + Loose(u, t.next) == Loose(t, t.next)
      && (|freed| < need ==> forall n :: n in u.nodes && n != ROOT ==> u.nodes[n].lock > 0)
    decreases |t.nodes|
  {
    hide Shape, LruOk, EvictOne, PinsOk, Evict, Loose;
    if need > 0 && t.lru != [] {
      EvictMore(t, need);
      EvictPins(t, hs);
      LooseOne(t, t.next);
      NextSame(t);
      EvictAmount(EvictOne(t), need - |t.nodes[t.lru[0]].blocks|, hs);
    } else {
      EvictDone(t, need);
      if need > 0 {
        forall n | n in t.nodes && n != ROOT ensures t.nodes[n].lock > 0 { EmptyListMeansPinned(t, hs, n); }
      }
    }
  }

  /** Some node that went had its blocks handed back last, and without them `need` was not yet met. */
  ghost predicate StoppedAt(t: Tree, u: Tree, freed: seq<nat>, need: int, n: int) {
    n in t.nodes && n !in u.nodes && LastFreed(freed, t.nodes[n].blocks) && |freed| - |t.nodes[n].blocks| < need
  }

  lemma {:induction false} EvictStops(t: Tree, need: int) returns (n: int)
    requires Shape(t) && LruOk(t) && Evict(t, need).1 != []
    ensures StoppedAt(t, Evict(t, need).0, Evict(t, need).1, need, n)
    decreases |t.nodes|
  {
    hide Shape, LruOk, EvictOne, Evict, LastFreed;
    if need <= 0 || t.lru == [] {
      EvictDone(t, need);
      assert false;
    }
    EvictMore(t, need);
    HeadGone(t);
    EvictOneKeeps(t);
    var own, v := t.nodes[t.lru[0]].blocks, EvictOne(t);
    EvictShrinksOnly(v, need - |own|);
    var (u, rest) := Evict(v, need - |own|);
    if rest == [] {
      n := t.lru[0];
      assert own + rest == own;
      LastOfOwn(own);
    } else {
      n := EvictStops(v, need - |own|);
      LastOfMore(own, rest, v.nodes[n].blocks);
    }
  }

  /** Eviction only removes nodes; the others keep blocks and locks. */
  lemma {:induction false} EvictShrinksOnly(t: Tree, need: int)
    requires Shape(t) && LruOk(t)
    ensures var u := Evict(t, need).0;
      && u.nodes.Keys <= t.nodes.Keys
      && (forall n :: n in u.nodes ==> u.nodes[n].blocks == t.nodes[n].blocks && u.nodes[n].lock == t.nodes[n].lock)
    decreases |t.nodes|
  {
    hide Shape, LruOk, EvictOne, Evict;
    if need > 0 && t.lru != [] {
      EvictMore(t, need);
      HeadGone(t);
      EvictOneKeeps(t);
      EvictShrinksOnly(EvictOne(t), need - |t.nodes[t.lru[0]].blocks|);
    } else {
      EvictDone(t, need);
    }
  }

  /** Least recently used first: no node on the list goes while an older one stays. */
  lemma {:induction false} EvictOldest(t: Tree, need: int, i: nat, j: nat)
    requires Shape(t) && LruOk(t) && i < j < |t.lru| && t.lru[j] !in Evict(t, need).0.nodes
    ensures t.lru[i] !in Evict(t, need).0.nodes
    decreases |t.nodes|
  {
    hide Shape, LruOk, Evict;
    if need <= 0 {
      EvictDone(t, need);
      ListedThere(t, j);
    } else {
      EvictMore(t, need);
      HeadGone(t);
      var v, rest := EvictOne(t), need - |t.nodes[t.lru[0]].blocks|;
      EvictOneKeeps(t);
      if i == 0 {
        EvictShrinksOnly(v, rest);
      } else {
        EvictOneList(t);
        assert v.lru[i - 1] == t.lru[i] && v.lru[j - 1] == t.lru[j];
        hide EvictOne;
        EvictOldest(v, rest, i - 1, j - 1);
      }
    }
  }

  lemma ListedThere(t: Tree, i: nat)
    requires LruOk(t) && i < |t.lru|
    ensures t.lru[i] in t.nodes
  {
    var n := t.lru[i];
    assert n in t.lru;
  }

  lemma EvictOneList(t: Tree)
    requires Shape(t) && LruOk(t) && t.lru != []
    ensures t.lru[1..] <= EvictOne(t).lru
  {
    EvictHead(t);
  }

  /**
   Eviction frees what is asked for or all there is: it falls short of `need` only when every
   remaining non-root node is pinned, and then it has freed every block of an unpinned node. The
   blocks of the last node evicted come last, and without them `need` was not yet met.
   */
  lemma EvictComplete(t: Tree, need: int, hs: seq<int>)
    requires TreeOk(t, hs)
    ensures var (u, freed) := Evict(t, need);
      && (|freed| < need ==> |freed| == Loose(t, t.next) && forall n :: n in u.nodes && n != ROOT ==> u.nodes[n].lock > 0)
      && (freed != [] ==> exists n :: StoppedAt(t, u, freed, need, n))
  {
    hide Shape, LruOk, Evict, PinsOk, Loose;
    EvictAmount(t, need, hs);
    var (u, freed) := Evict(t, need);
    if |freed| < need { LooseNone(u, t.next); }
    if freed != [] {
      var n := EvictStops(t, need);
    }
  }

  /** `blocks` were handed back last. */
  predicate LastFreed(freed: seq<nat>, blocks: seq<nat>) {
    |blocks| <= |freed| && freed[|freed| - |blocks|..] == blocks
  }

  lemma LastOfOwn(own: seq<nat>)
    ensures LastFreed(own, own)
  {}

  lemma LastOfMore(own: seq<nat>, rest: seq<nat>, blocks: seq<nat>)
    requires LastFreed(rest, blocks)
    ensures LastFreed(own + rest, blocks)
  {
    assert (own + rest)[|own| + |rest| - |blocks|..] == rest[|rest| - |blocks|..];
  }

  lemma HeadGone(t: Tree)
    requires Shape(t) && LruOk(t) && t.lru != []
    ensures t.lru[0] !in EvictOne(t).nodes && EvictOne(t).nodes.Keys <= t.nodes.Keys
    ensures t.lru[0] in t.nodes && t.nodes[t.lru[0]].blocks != []
  {
    EvictHead(t);
  }

  lemma EvictOneKeeps(t: Tree)
    requires Shape(t) && LruOk(t) && t.lru != []
    ensures forall n :: n in EvictOne(t).nodes ==>
      n in t.nodes && EvictOne(t).nodes[n].blocks == t.nodes[n].blocks && EvictOne(t).nodes[n].lock == t.nodes[n].lock
  {
    EvictHead(t);
  }

  /** Surviving nodes keep their place. */
  lemma {:induction false} EvictPaths(t: Tree, need: int, n: int)
    requires Shape(t) && LruOk(t) && n in Evict(t, need).0.nodes
    ensures n in t.nodes && Evict(t, need).0.nodes[n].path == t.nodes[n].path
    decreases |t.nodes|
  {
    if need > 0 && t.lru != [] {
      EvictShape(t);
      EvictLru(t);
      EvictShrinks(t);
      EvictHead(t);
      EvictPaths(EvictOne(t), need - |t.nodes[t.lru[0]].blocks|, n);
    }
  }

  lemma {:induction false} EvictKeepsInjective(t: Tree, need: int)
    requires Shape(t) && LruOk(t) && Injective(t)
    ensures Injective(Evict(t, need).0)
  {
    var u := Evict(t, need).0;
    forall x, y, b | Entry(u, x, b) && Entry(u, y, b) ensures x == y {
      EvictRemoves(t, need, x, b);
      EvictRemoves(t, need, y, b);
      SamePrefix(t, x, y, b);
    }
  }

  /** A prefix of a pinned node's path is never under an unpinned node. */
  lemma PinnedPrefix(t: Tree, hs: seq<int>, i: nat, x: seq<Chunk>)
    requires Shape(t) && PinsOk(t, hs) && i < |hs| && hs[i] in t.nodes && x <= t.nodes[hs[i]].path
    ensures !Unpinned(t, x)
  {
    if Unpinned(t, x) {
      var n :| Covers(t, n, x) && t.nodes[n].lock == 0;
      CoverIsAncestor(t, n, hs[i], x);
      PinsPositive(t, hs, n, i);
      assert false;
    }
  }
}
