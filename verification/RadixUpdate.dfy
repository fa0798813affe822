/**
 The updates of the radix tree: pinning, splitting a segment, adding a leaf, inserting a
 sequence, evicting leaves. Each is stated as one whole-tree change; what it keeps and what
 it does to the prefix map, the pins and the eviction list are the lemmas.
 */
module RadixUpdate {
  import opened Basics
  import opened RadixSpec

  // ---------------------------------------------------------------- pins

  /** How many of the outstanding handles `hs` sit at or below node `n`. */
  function Pins(t: Tree, hs: seq<int>, n: int): (r: nat)
    requires n in t.nodes && forall i :: 0 <= i < |hs| ==> hs[i] in t.nodes
  {
    if hs == [] then 0 else (if Anc(t, n, hs[0]) then 1 else 0) + Pins(t, hs[1..], n)
  }

  ghost predicate HandlesIn(t: Tree, hs: seq<int>) {
    forall i :: 0 <= i < |hs| ==> hs[i] in t.nodes
  }

  /** `lock_ref` is exactly the number of handles at or below the node, plus one for the root. */
  ghost predicate PinsOk(t: Tree, hs: seq<int>) {
    && HandlesIn(t, hs)
    && forall n :: n in t.nodes ==> t.nodes[n].lock == Pins(t, hs, n) + if n == ROOT then 1 else 0
  }

  /** Structure, eviction list and pins together. */
  ghost predicate TreeOk(t: Tree, hs: seq<int>) {
    Shape(t) && LruOk(t) && PinsOk(t, hs)
  }

  lemma {:induction false} PinsConcat(t: Tree, a: seq<int>, b: seq<int>, n: int)
    requires n in t.nodes && HandlesIn(t, a) && HandlesIn(t, b)
    ensures HandlesIn(t, a + b) && Pins(t, a + b, n) == Pins(t, a, n) + Pins(t, b, n)
  {
    if a == [] {
      assert a + b == b;
    } else {
      assert (a + b)[1..] == a[1..] + b;
      PinsConcat(t, a[1..], b, n);
    }
  }

  /** Pins depend only on paths. */
  lemma {:induction false} PinsSame(t: Tree, u: Tree, hs: seq<int>, n: int, m: int)
    requires n in t.nodes && m in u.nodes && HandlesIn(t, hs) && HandlesIn(u, hs)
    requires forall i :: 0 <= i < |hs| ==> (Anc(t, n, hs[i]) <==> Anc(u, m, hs[i]))
    ensures Pins(t, hs, n) == Pins(u, hs, m)
  {
    if hs != [] {
      forall i | 0 <= i < |hs[1..]| ensures Anc(t, n, hs[1..][i]) <==> Anc(u, m, hs[1..][i]) {
        assert hs[1..][i] == hs[i + 1];
      }
      PinsSame(t, u, hs[1..], n, m);
    }
  }

  lemma {:induction false} PinsPositive(t: Tree, hs: seq<int>, n: int, i: nat)
    requires n in t.nodes && HandlesIn(t, hs) && i < |hs| && Anc(t, n, hs[i])
    ensures Pins(t, hs, n) > 0
  {
    if i > 0 { PinsPositive(t, hs[1..], n, i - 1); }
  }

  lemma {:induction false} PinsZero(t: Tree, hs: seq<int>, n: int)
    requires n in t.nodes && HandlesIn(t, hs)
    requires forall i :: 0 <= i < |hs| ==> !Anc(t, n, hs[i])
    ensures Pins(t, hs, n) == 0
  {
    if hs != [] {
      assert forall i :: 0 <= i < |hs[1..]| ==> hs[1..][i] == hs[i + 1];
      PinsZero(t, hs[1..], n);
    }
  }

  lemma {:induction false} PinsMonotone(t: Tree, hs: seq<int>, n: int, m: int)
    requires n in t.nodes && m in t.nodes && HandlesIn(t, hs) && Anc(t, n, m)
    ensures Pins(t, hs, m) <= Pins(t, hs, n)
  {
    if hs != [] {
      PinsMonotone(t, hs[1..], n, m);
      assert Anc(t, m, hs[0]) ==> Anc(t, n, hs[0]);
    }
  }

  /** `lock_ref` never increases going down. */
  lemma LockMonotone(t: Tree, hs: seq<int>, n: int, m: int)
    requires PinsOk(t, hs) && n in t.nodes && m in t.nodes && Anc(t, n, m) && m != ROOT
    ensures t.nodes[m].lock <= t.nodes[n].lock
  {
    PinsMonotone(t, hs, n, m);
  }

  // ---------------------------------------------------------------- inc_lock_ref / dec_lock_ref

  /** Add `d` to the lock of `h` and all its ancestors. */
  function Shift(t: Tree, h: int, d: int): map<int, Node>
    requires h in t.nodes
  {
    map n | n in t.nodes :: if Anc(t, n, h) then t.nodes[n].(lock := t.nodes[n].lock + d) else t.nodes[n]
  }

  function Pin(t: Tree, h: int): Tree
    requires h in t.nodes
  {
    var u := t.(nodes := Shift(t, h, 1));
    if h in t.lru then u.(lru := Without(t.lru, h), evictable := t.evictable - |t.nodes[h].blocks|) else u
  }

  function Unpin(t: Tree, h: int): Tree
    requires h in t.nodes
  {
    var u := t.(nodes := Shift(t, h, -1));
    if t.nodes[h].lock == 1 && t.nodes[h].children == map[] && h !in t.lru
    then u.(lru := t.lru + [h], evictable := t.evictable + |t.nodes[h].blocks|)
    else u
  }

  lemma ShiftShape(t: Tree, h: int, d: int, u: Tree)
    requires Shape(t) && h in t.nodes && u.nodes == Shift(t, h, d) && u.next == t.next
    ensures Shape(u)
    ensures forall n, m :: n in t.nodes && m in t.nodes ==> (Anc(t, n, m) <==> Anc(u, n, m))
  {
    forall n | n in u.nodes && n != ROOT ensures UpOk(u, n) { Up(t, n); }
    forall n, f | n in u.nodes && f in u.nodes[n].children ensures DownOk(u, n, f) { Down(t, n, f); }
  }

  lemma LeafHasNoDescendant(t: Tree, n: int, h: int)
    requires Shape(t) && n in t.nodes && h in t.nodes && n != h && n != ROOT && Anc(t, n, h)
    ensures t.nodes[n].children != map[]
    decreases |t.nodes[h].path|
  {
    Up(t, n);
    assert h != ROOT;
    AncStep(t, n, h);
    var p := t.nodes[h].parent;
    if p != n { LeafHasNoDescendant(t, n, p); }
    else { assert t.nodes[h].key[0] in t.nodes[n].children; }
  }

  lemma PinKeeps(t: Tree, hs: seq<int>, h: int)
    requires TreeOk(t, hs) && h in t.nodes
    ensures TreeOk(Pin(t, h), hs + [h])
  {
    var u := Pin(t, h);
    ShiftShape(t, h, 1, u);
    PinShifted(t, hs, h, u);
    PinList(t, h);
  }

  lemma PinList(t: Tree, h: int)
    requires Shape(t) && LruOk(t) && h in t.nodes && forall n :: n in t.nodes ==> t.nodes[n].lock >= 0
    ensures LruOk(Pin(t, h))
  {
    var u := Pin(t, h);
    if h in t.lru {
      WithoutProps(t.lru, h);
      WeightWithout(t, t.lru, h);
    }
    forall n ensures n in u.lru <==> Evictable(u, n) {
      if Evictable(t, n) && n != h && Anc(t, n, h) { LeafHasNoDescendant(t, n, h); }
      if n in t.nodes { assert t.nodes[n].lock >= 0; }
    }
    WeightSame(t, u, u.lru);
  }

  lemma PinShifted(t: Tree, hs: seq<int>, h: int, u: Tree)
    requires Shape(t) && PinsOk(t, hs) && h in t.nodes && u.nodes == Shift(t, h, 1) && u.next == t.next
    ensures PinsOk(u, hs + [h])
  {
    forall n | n in u.nodes
      ensures u.nodes[n].lock == Pins(u, hs + [h], n) + if n == ROOT then 1 else 0
    {
      PinShiftedAt(t, hs, h, u, n);
    }
  }

  lemma PinShiftedAt(t: Tree, hs: seq<int>, h: int, u: Tree, n: int)
    requires HandlesIn(t, hs) && h in t.nodes && u.nodes == Shift(t, h, 1) && n in t.nodes
    ensures HandlesIn(u, hs + [h])
    ensures Pins(u, hs + [h], n) == Pins(t, hs, n) + if Anc(t, n, h) then 1 else 0
  {
    PinsConcat(u, hs, [h], n);
    PinsSame(t, u, hs, n, n);
    assert Pins(u, [h], n) == if Anc(u, n, h) then 1 else 0;
  }

  /** Dropping the handle at position `i`. */
  lemma UnpinKeeps(t: Tree, hs: seq<int>, i: nat)
    requires TreeOk(t, hs) && i < |hs|
    ensures hs[i] in t.nodes && TreeOk(Unpin(t, hs[i]), hs[..i] + hs[i + 1..])
  {
    var h := hs[i];
    var u := Unpin(t, h);
    PinsPositive(t, hs, h, i);
    ShiftShape(t, h, -1, u);
    UnpinShifted(t, hs, i, u);
    UnpinList(t, h);
  }

  lemma UnpinList(t: Tree, h: int)
    requires Shape(t) && LruOk(t) && h in t.nodes && t.nodes[h].lock > (if h == ROOT then 1 else 0)
    ensures LruOk(Unpin(t, h))
  {
    var u := Unpin(t, h);
    assert h !in t.lru;
    forall n ensures n in u.lru <==> Evictable(u, n) {
      if n in t.nodes && n != ROOT && n != h && Anc(t, n, h) { LeafHasNoDescendant(t, n, h); }
      assert n in t.lru <==> Evictable(t, n);
    }
    if u.lru != t.lru { WeightAppend(t, t.lru, h); }
    WeightSame(t, u, u.lru);
  }

  lemma UnpinShifted(t: Tree, hs: seq<int>, i: nat, u: Tree)
    requires Shape(t) && PinsOk(t, hs) && i < |hs| && u.nodes == Shift(t, hs[i], -1) && u.next == t.next
    ensures PinsOk(u, hs[..i] + hs[i + 1..])
  {
    forall n | n in u.nodes
      ensures u.nodes[n].lock == Pins(u, hs[..i] + hs[i + 1..], n) + if n == ROOT then 1 else 0
    {
      UnpinShiftedAt(t, hs, i, u, n);
    }
  }

  lemma UnpinShiftedAt(t: Tree, hs: seq<int>, i: nat, u: Tree, n: int)
    requires HandlesIn(t, hs) && i < |hs| && u.nodes == Shift(t, hs[i], -1) && n in t.nodes
    ensures HandlesIn(u, hs[..i] + hs[i + 1..])
    ensures Pins(u, hs[..i] + hs[i + 1..], n) == Pins(t, hs, n) - if Anc(t, n, hs[i]) then 1 else 0
  {
    var gs := hs[..i] + hs[i + 1..];
    PinsWithout(t, hs, i, n);
    forall j | 0 <= j < |gs| ensures gs[j] in u.nodes && (Anc(t, n, gs[j]) <==> Anc(u, n, gs[j])) {}
    PinsSame(t, u, gs, n, n);
  }

  lemma PinsWithout(t: Tree, hs: seq<int>, i: nat, n: int)
    requires HandlesIn(t, hs) && i < |hs| && n in t.nodes
    ensures HandlesIn(t, hs[..i] + hs[i + 1..])
    ensures Pins(t, hs, n) == Pins(t, hs[..i] + hs[i + 1..], n) + if Anc(t, n, hs[i]) then 1 else 0
  {
    hide Anc;
    var a, h, b := hs[..i], hs[i], hs[i + 1..];
    assert hs == a + ([h] + b);
    PinsConcat(t, [h], b, n);
    PinsConcat(t, a, [h] + b, n);
    PinsConcat(t, a, b, n);
    assert Pins(t, [h], n) == if Anc(t, n, h) then 1 else 0;
  }

  // ---------------------------------------------------------------- _split_node

  /** Cut node `c` after `k` chunks: a new node takes the front, `c` keeps the rest. */
  function Split(t: Tree, c: int, k: nat): Tree
    requires Shape(t) && c in t.nodes && c != ROOT && 0 < k < |t.nodes[c].key|
  {
    Up(t, c);
    var x := t.nodes[c];
    var p := t.nodes[x.parent];
    var front := Node(x.path[..x.Start() + k], x.key[..k], x.blocks[..k], x.parent, map[x.key[k] := c], x.lock);
    Tree(t.nodes[t.next := front]
                [c := x.(key := x.key[k..], blocks := x.blocks[k..], parent := t.next)]
                [x.parent := p.(children := p.children[x.key[0] := t.next])],
         t.lru,
         if c in t.lru then t.evictable - k else t.evictable,
         t.next + 1)
  }

  lemma SplitFront(t: Tree, c: int, k: nat)
    requires Shape(t) && c in t.nodes && c != ROOT && 0 < k < |t.nodes[c].key|
    ensures var u, p := Split(t, c, k), t.nodes[c].parent;
      && UpOk(t, c) && t.next !in t.nodes && c != p && t.nodes[c].Start() >= 0
      && u.nodes.Keys == t.nodes.Keys + {t.next}
      && u.nodes[t.next].path == t.nodes[p].path + t.nodes[c].key[..k]
      && u.nodes[c].path == t.nodes[c].path == u.nodes[t.next].path + t.nodes[c].key[k..]
      && u.nodes[p].path == t.nodes[p].path
      && t.nodes[p].children[t.nodes[c].key[0]] == c
  {
    Up(t, c);
  }

  lemma SplitUp(t: Tree, c: int, k: nat, n: int)
    requires Shape(t) && c in t.nodes && c != ROOT && 0 < k < |t.nodes[c].key|
    requires n in Split(t, c, k).nodes && n != ROOT
    ensures UpOk(Split(t, c, k), n)
  {
    SplitFront(t, c, k);
    var p := t.nodes[c].parent;
    if n != t.next && n != c {
      Up(t, n);
      if t.nodes[n].parent == p {
        assert t.nodes[n].key[0] != t.nodes[c].key[0];
      }
    }
  }

  lemma SplitDown(t: Tree, c: int, k: nat, n: int, f: Chunk)
    requires Shape(t) && c in t.nodes && c != ROOT && 0 < k < |t.nodes[c].key|
    requires n in Split(t, c, k).nodes && f in Split(t, c, k).nodes[n].children
    ensures DownOk(Split(t, c, k), n, f)
  {
    SplitFront(t, c, k);
    var p := t.nodes[c].parent;
    if n != t.next && (n != p || f != t.nodes[c].key[0]) {
      Down(t, n, f);
    }
  }

  lemma SplitBasics(t: Tree, c: int, k: nat)
    requires Shape(t) && c in t.nodes && c != ROOT && 0 < k < |t.nodes[c].key|
    ensures RootOk(Split(t, c, k))
    ensures forall n :: n in Split(t, c, k).nodes ==> 0 <= n < Split(t, c, k).next
  {
    SplitFront(t, c, k);
  }

  lemma SplitShape(t: Tree, c: int, k: nat)
    requires Shape(t) && c in t.nodes && c != ROOT && 0 < k < |t.nodes[c].key|
    ensures Shape(Split(t, c, k))
  {
    hide Split, UpOk, DownOk, RootOk;
    var u := Split(t, c, k);
    SplitBasics(t, c, k);
    forall n | n in u.nodes && n != ROOT ensures UpOk(u, n) { SplitUp(t, c, k, n); }
    forall n, f | n in u.nodes && f in u.nodes[n].children ensures DownOk(u, n, f) { SplitDown(t, c, k, n, f); }
  }

  /** After a split every old prefix is covered by the same node, or by the new front of `c`. */
  lemma SplitCovers(t: Tree, c: int, k: nat, n: int, x: seq<Chunk>)
    requires Shape(t) && c in t.nodes && c != ROOT && 0 < k < |t.nodes[c].key|
    ensures var u := Split(t, c, k);
      && (n != c && n != t.next ==> (Covers(u, n, x) <==> Covers(t, n, x)))
      && (Covers(u, c, x) <==> Covers(t, c, x) && |x| > t.nodes[c].Start() + k)
      && (Covers(u, t.next, x) <==> Covers(t, c, x) && |x| <= t.nodes[c].Start() + k)
  {
    SplitFront(t, c, k);
    var u := Split(t, c, k);
    var w := t.nodes[c].Start() + k;
    assert u.nodes[t.next].path == t.nodes[c].path[..w];
    if |x| <= w && x <= t.nodes[c].path {
      assert x == t.nodes[c].path[..w][..|x|];
    }
  }

  lemma SplitEntryKept(t: Tree, c: int, k: nat, x: seq<Chunk>, b: nat)
    requires Shape(t) && c in t.nodes && c != ROOT && 0 < k < |t.nodes[c].key|
    requires Entry(t, x, b)
    ensures Entry(Split(t, c, k), x, b)
  {
    var u := Split(t, c, k);
    SplitFront(t, c, k);
    var n :| Covers(t, n, x) && EntryAt(t, n, x, b);
    SplitCovers(t, c, k, n, x);
    var m := if n == c && |x| <= t.nodes[c].Start() + k then t.next else n;
    assert Covers(u, m, x);
    assert u.nodes[t.next].Start() == t.nodes[c].Start();
    assert EntryAt(u, m, x, b);
  }

  lemma SplitEntryOld(t: Tree, c: int, k: nat, x: seq<Chunk>, b: nat)
    requires Shape(t) && c in t.nodes && c != ROOT && 0 < k < |t.nodes[c].key|
    requires Entry(Split(t, c, k), x, b)
    ensures Entry(t, x, b)
  {
    var u := Split(t, c, k);
    SplitFront(t, c, k);
    var n :| Covers(u, n, x) && EntryAt(u, n, x, b);
    SplitCovers(t, c, k, n, x);
    var m := if n == t.next then c else n;
    assert Covers(t, m, x);
    assert u.nodes[t.next].Start() == t.nodes[c].Start();
    assert EntryAt(t, m, x, b);
  }

  /** The new front node has exactly the descendants of `c`. */
  lemma SplitAnc(t: Tree, c: int, k: nat, h: int)
    requires Shape(t) && c in t.nodes && c != ROOT && 0 < k < |t.nodes[c].key| && h in t.nodes
    ensures var u := Split(t, c, k);
      && t.next in u.nodes && h in u.nodes && u.nodes[h].path == t.nodes[h].path
      && (Anc(u, t.next, h) <==> Anc(t, c, h))
  {
    SplitFront(t, c, k);
    var u := Split(t, c, k);
    assert u.nodes[t.next].path <= u.nodes[c].path;
    if Anc(u, t.next, h) {
      CoverIsAncestor(t, c, h, u.nodes[t.next].path);
    }
  }

  lemma SplitPins(t: Tree, c: int, k: nat, hs: seq<int>)
    requires Shape(t) && c in t.nodes && c != ROOT && 0 < k < |t.nodes[c].key| && PinsOk(t, hs)
    ensures PinsOk(Split(t, c, k), hs)
  {
    var u := Split(t, c, k);
    SplitFront(t, c, k);
    forall i | 0 <= i < |hs| ensures hs[i] in u.nodes && u.nodes[hs[i]].path == t.nodes[hs[i]].path
      && (Anc(u, t.next, hs[i]) <==> Anc(t, c, hs[i]))
    {
      SplitAnc(t, c, k, hs[i]);
    }
    forall n | n in u.nodes
      ensures u.nodes[n].lock == Pins(u, hs, n) + if n == ROOT then 1 else 0
    {
      var m := if n == t.next then c else n;
      assert n != t.next ==> u.nodes[n].path == t.nodes[n].path;
      PinsSame(t, u, hs, m, n);
    }
  }

  lemma SplitLru(t: Tree, c: int, k: nat)
    requires Shape(t) && c in t.nodes && c != ROOT && 0 < k < |t.nodes[c].key| && LruOk(t)
    ensures LruOk(Split(t, c, k))
  {
    var u := Split(t, c, k);
    SplitFront(t, c, k);
    var p := t.nodes[c].parent;
    assert t.nodes[c].key[0] in t.nodes[p].children && t.nodes[c].key[0] in u.nodes[p].children;
    assert t.nodes[c].key[k] in u.nodes[t.next].children;
    assert !Evictable(t, t.next);
    forall n ensures n in u.lru <==> Evictable(u, n) {
      assert n in t.lru <==> Evictable(t, n);
    }
    assert t.next !in t.lru && p !in t.lru;
    forall i | 0 <= i < |t.lru|
      ensures t.lru[i] in t.nodes && t.lru[i] in u.nodes
      ensures |u.nodes[t.lru[i]].blocks| == |t.nodes[t.lru[i]].blocks| - if t.lru[i] == c then k else 0
    {
      var m := t.lru[i];
      assert m in t.lru;
    }
    if c in t.lru { WeightCut(t, u, t.lru, c, k); } else { WeightSame(t, u, t.lru); }
  }

  /** Cutting `k` blocks off one listed node lowers the total by `k`. */
  lemma {:induction false} WeightCut(t: Tree, u: Tree, s: seq<int>, c: int, k: nat)
    requires NoDup(s) && c in s
    requires forall i :: 0 <= i < |s| ==>
      (s[i] in t.nodes && s[i] in u.nodes
       && |u.nodes[s[i]].blocks| == |t.nodes[s[i]].blocks| - if s[i] == c then k else 0)
    ensures (forall n :: n in s ==> n in t.nodes && n in u.nodes) && Weight(u, s) == Weight(t, s) - k
  {
    assert forall n :: n in s ==> n in t.nodes && n in u.nodes;
    assert s[0] in t.nodes;
    if s[0] == c {
      WeightSame(t, u, s[1..]);
    } else {
      WeightCut(t, u, s[1..], c, k);
    }
  }

  /** Splitting keeps structure, eviction list, counter and pins, and leaves the map unchanged. */
  lemma SplitKeeps(t: Tree, c: int, k: nat, hs: seq<int>)
    requires TreeOk(t, hs) && c in t.nodes && c != ROOT && 0 < k < |t.nodes[c].key|
    ensures TreeOk(Split(t, c, k), hs)
    ensures forall x, b :: Entry(Split(t, c, k), x, b) <==> Entry(t, x, b)
  {
    SplitShape(t, c, k);
    SplitPins(t, c, k, hs);
    SplitLru(t, c, k);
    forall x, b ensures Entry(Split(t, c, k), x, b) <==> Entry(t, x, b) {
      if Entry(t, x, b) { SplitEntryKept(t, c, k, x, b); }
      if Entry(Split(t, c, k), x, b) { SplitEntryOld(t, c, k, x, b); }
    }
  }

  // ---------------------------------------------------------------- new leaf

  function AddLeaf(t: Tree, p: int, key: seq<Chunk>, blocks: seq<nat>): Tree
    requires p in t.nodes && 0 < |key|
  {
    var x := t.nodes[p];
    var held := p in t.lru;
    Tree(t.nodes[t.next := Node(x.path + key, key, blocks, p, map[], 0)]
                [p := x.(children := x.children[key[0] := t.next])],
         (if held then Without(t.lru, p) else t.lru) + [t.next],
         t.evictable - (if held then |x.blocks| else 0) + |blocks|,
         t.next + 1)
  }

  ghost predicate FitsLeaf(t: Tree, p: int, key: seq<Chunk>, blocks: seq<nat>) {
    Shape(t) && p in t.nodes && 0 < |key| == |blocks| && key[0] !in t.nodes[p].children
  }

  lemma AddLeafUp(t: Tree, p: int, key: seq<Chunk>, blocks: seq<nat>, n: int)
    requires FitsLeaf(t, p, key, blocks) && n in AddLeaf(t, p, key, blocks).nodes && n != ROOT
    ensures UpOk(AddLeaf(t, p, key, blocks), n)
  {
    if n != t.next { Up(t, n); }
  }

  lemma AddLeafDown(t: Tree, p: int, key: seq<Chunk>, blocks: seq<nat>, n: int, f: Chunk)
    requires FitsLeaf(t, p, key, blocks)
    requires n in AddLeaf(t, p, key, blocks).nodes && f in AddLeaf(t, p, key, blocks).nodes[n].children
    ensures DownOk(AddLeaf(t, p, key, blocks), n, f)
  {
    if n != t.next && !(n == p && f == key[0]) { Down(t, n, f); }
  }

  lemma AddLeafBasics(t: Tree, p: int, key: seq<Chunk>, blocks: seq<nat>)
    requires FitsLeaf(t, p, key, blocks)
    ensures var u := AddLeaf(t, p, key, blocks);
      && t.next !in t.nodes && p != t.next && RootOk(u)
      && (forall n :: n in u.nodes ==> 0 <= n < u.next)
      && (forall n :: n in t.nodes ==> n in u.nodes && u.nodes[n].path == t.nodes[n].path)
  {}

  lemma AddLeafShape(t: Tree, p: int, key: seq<Chunk>, blocks: seq<nat>)
    requires FitsLeaf(t, p, key, blocks)
    ensures Shape(AddLeaf(t, p, key, blocks))
  {
    var u := AddLeaf(t, p, key, blocks);
    AddLeafBasics(t, p, key, blocks);
    forall n | n in u.nodes && n != ROOT ensures UpOk(u, n) { AddLeafUp(t, p, key, blocks, n); }
    forall n, f | n in u.nodes && f in u.nodes[n].children ensures DownOk(u, n, f) { AddLeafDown(t, p, key, blocks, n, f); }
  }

  lemma AddLeafLru(t: Tree, p: int, key: seq<Chunk>, blocks: seq<nat>)
    requires FitsLeaf(t, p, key, blocks) && LruOk(t)
    ensures LruOk(AddLeaf(t, p, key, blocks))
  {
    var u := AddLeaf(t, p, key, blocks);
    assert t.next !in t.nodes && t.next !in t.lru;
    var rest := if p in t.lru then Without(t.lru, p) else t.lru;
    WithoutProps(t.lru, p);
    if p in t.lru { WeightWithout(t, t.lru, p); }
    assert forall n :: n in rest <==> n in t.lru && n != p;
    forall n ensures n in u.lru <==> Evictable(u, n) {
      assert n in t.lru <==> Evictable(t, n);
      assert key[0] in u.nodes[p].children;
    }
    WeightSame(t, u, rest);
    WeightAppend(u, rest, t.next);
  }

  lemma AddLeafPins(t: Tree, p: int, key: seq<Chunk>, blocks: seq<nat>, hs: seq<int>)
    requires FitsLeaf(t, p, key, blocks) && PinsOk(t, hs) && !Cached(t, t.nodes[p].path + key[..1])
    ensures PinsOk(AddLeaf(t, p, key, blocks), hs)
  {
    var u := AddLeaf(t, p, key, blocks);
    AddLeafBasics(t, p, key, blocks);
    forall i | 0 <= i < |hs| ensures !Anc(u, t.next, hs[i]) {
      if Anc(u, t.next, hs[i]) {
        var x := t.nodes[p].path + key[..1];
        assert x <= u.nodes[t.next].path;
        var m := CoverOfPrefix(t, hs[i], x);
      }
    }
    PinsZero(u, hs, t.next);
    forall n | n in u.nodes
      ensures u.nodes[n].lock == Pins(u, hs, n) + if n == ROOT then 1 else 0
    {
      if n != t.next { PinsSame(t, u, hs, n, n); }
    }
  }

  /** The new leaf adds exactly the prefixes that extend its parent along its key. */
  lemma AddLeafEntry(t: Tree, p: int, key: seq<Chunk>, blocks: seq<nat>, x: seq<Chunk>, b: nat)
    requires FitsLeaf(t, p, key, blocks)
    ensures var w := |t.nodes[p].path|;
      Entry(AddLeaf(t, p, key, blocks), x, b)
      <==> Entry(t, x, b) || (w < |x| && x <= t.nodes[p].path + key && blocks[|x| - 1 - w] == b)
  {
    var u := AddLeaf(t, p, key, blocks);
    AddLeafCovers(t, p, key, blocks, x);
    if Entry(t, x, b) {
      var n :| Covers(t, n, x) && EntryAt(t, n, x, b);
      assert Covers(u, n, x) && EntryAt(u, n, x, b);
    }
    if Covers(u, t.next, x) && blocks[|x| - 1 - |t.nodes[p].path|] == b {
      assert EntryAt(u, t.next, x, b);
    }
    if Entry(u, x, b) {
      var n :| Covers(u, n, x) && EntryAt(u, n, x, b);
      if n != t.next { assert Covers(t, n, x) && EntryAt(t, n, x, b); }
    }
  }

  lemma AddLeafCovers(t: Tree, p: int, key: seq<Chunk>, blocks: seq<nat>, x: seq<Chunk>)
    requires FitsLeaf(t, p, key, blocks)
    ensures var u := AddLeaf(t, p, key, blocks);
      && t.next !in t.nodes
      && (forall n :: n != t.next ==> (Covers(u, n, x) <==> Covers(t, n, x)))
      && (Covers(u, t.next, x) <==> |t.nodes[p].path| < |x| && x <= t.nodes[p].path + key)
  {
    AddLeafBasics(t, p, key, blocks);
  }
}
