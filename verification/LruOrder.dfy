/**
 The eviction list against its history. Every operation on the tree is a sequence of uses and
 departures of nodes; after any operations the list holds exactly the nodes used since they last
 left, in the order of their last use.
 */
module LruOrder {
  import opened Basics
  import opened RadixSpec
  import opened RadixUpdate
  import opened RadixInsertEvict

  /** A node is used (listed anew, or hit), or leaves (pinned, given a child, evicted). */
  datatype Event = Used(node: int) | Left(node: int)

  function Apply(s: seq<int>, e: Event): seq<int> {
    if e.Used? then Without(s, e.node) + [e.node] else Without(s, e.node)
  }

  function Replay(s: seq<int>, es: seq<Event>): seq<int>
    decreases |es|
  {
    if es == [] then s else Apply(Replay(s, es[..|es| - 1]), es[|es| - 1])
  }

  /** When `n` was last used, if it has not left since; -1 otherwise. */
  function LastUse(es: seq<Event>, n: int): (k: int)
    ensures -1 <= k < |es|
    decreases |es|
  {
    if es == [] then -1
    else if es[|es| - 1].node == n then if es[|es| - 1].Used? then |es| - 1 else -1
    else LastUse(es[..|es| - 1], n)
  }

  lemma {:induction false} WithoutOrder(s: seq<int>, n: int, i: nat, j: nat)
    requires NoDup(s) && i < j < |Without(s, n)|
    ensures exists p, q :: 0 <= p < q < |s| && s[p] == Without(s, n)[i] && s[q] == Without(s, n)[j]
  {
    if s[0] == n {
      assert s[i + 1] == Without(s, n)[i] && s[j + 1] == Without(s, n)[j];
    } else if i > 0 {
      WithoutOrder(s[1..], n, i - 1, j - 1);
      var p, q :| 0 <= p < q < |s[1..]| && s[1..][p] == Without(s[1..], n)[i - 1] && s[1..][q] == Without(s[1..], n)[j - 1];
      assert s[p + 1] == Without(s, n)[i] && s[q + 1] == Without(s, n)[j];
    } else {
      WithoutProps(s[1..], n);
      var x := Without(s[1..], n)[j - 1];
      assert x in s[1..];
      var q :| 0 <= q < |s[1..]| && s[1..][q] == x;
      assert s[0] == Without(s, n)[0] && s[q + 1] == Without(s, n)[j];
    }
  }

  /** The list is the nodes in use, each once, least recently used first. */
  lemma {:induction false} OrderedByLastUse(es: seq<Event>)
    ensures var s := Replay([], es);
      && NoDup(s)
      && (forall n :: n in s <==> LastUse(es, n) >= 0)
      && (forall i, j :: 0 <= i < j < |s| ==> LastUse(es, s[i]) < LastUse(es, s[j]))
    decreases |es|
  {
    if es != [] {
      var before, e := es[..|es| - 1], es[|es| - 1];
      OrderedByLastUse(before);
      var s, w, r := Replay([], before), Without(Replay([], before), e.node), Replay([], es);
      WithoutProps(s, e.node);
      forall n ensures n in r <==> LastUse(es, n) >= 0 {
        assert n in s <==> LastUse(before, n) >= 0;
      }
      forall i, j | 0 <= i < j < |r| ensures LastUse(es, r[i]) < LastUse(es, r[j]) {
        if j < |w| {
          WithoutOrder(s, e.node, i, j);
          assert w[i] in w && w[j] in w;
        } else {
          assert w[i] in w;
        }
      }
    }
  }

  // ---------------------------------------------------------------- the tree's updates are events

  /** A hit on a listed node is a use. */
  function TouchEvents(t: Tree, n: int): seq<Event> {
    if Evictable(t, n) then [Used(n)] else []
  }

  /** The last unpin of a leaf is a use. */
  function UnpinEvents(t: Tree, h: int): seq<Event>
    requires h in t.nodes
  {
    if t.nodes[h].lock == 1 && t.nodes[h].children == map[] then [Used(h)] else []
  }

  /** Insertion of something new: the parent of the new leaf leaves, the leaf is used. A split changes nothing. */
  function InsertEvents(t: Tree, x: seq<Chunk>): seq<Event>
    requires Shape(t)
  {
    var (n, len) := Find(t, x);
    if len == |x| then []
    else if len < |t.nodes[n].path| then [Left(t.next), Used(t.next + 1)]
    else [Left(n), Used(t.next)]
  }

  /** One eviction: the oldest node leaves, and a parent that is now an unpinned leaf is used. */
  function EvictEvents(t: Tree): seq<Event>
    requires Shape(t) && LruOk(t) && t.lru != []
  {
    var n := t.lru[0];
    EvictHead(t);
    var p := t.nodes[n].parent;
    [Left(n)] + if p != ROOT && t.nodes[p].children - {t.nodes[n].key[0]} == map[] && t.nodes[p].lock == 0 then [Used(p)] else []
  }

  /** A whole eviction, node by node. */
  function ShedEvents(t: Tree, need: int): seq<Event>
    requires Shape(t) && LruOk(t)
    decreases |t.nodes|
  {
    if need <= 0 || t.lru == [] then []
    else
      EvictMore(t, need);
      EvictEvents(t) + ShedEvents(EvictOne(t), need - |t.nodes[t.lru[0]].blocks|)
  }

  lemma {:induction false} WithoutAbsent(s: seq<int>, n: int)
    requires n !in s
    ensures Without(s, n) == s
  {
    if s != [] { WithoutAbsent(s[1..], n); }
  }

  lemma ReplayTwo(s: seq<int>, a: Event, b: Event)
    ensures Replay(s, []) == s && Replay(s, [a]) == Apply(s, a) && Replay(s, [a, b]) == Apply(Apply(s, a), b)
  {
    assert [a][..0] == [] && [a, b][..1] == [a];
  }

  lemma {:induction false} ReplayConcat(s: seq<int>, a: seq<Event>, b: seq<Event>)
    ensures Replay(s, a + b) == Replay(Replay(s, a), b)
    decreases |b|
  {
    if b == [] {
      assert a + b == a;
    } else {
      assert (a + b)[..|a + b| - 1] == a + b[..|b| - 1];
      ReplayConcat(s, a, b[..|b| - 1]);
    }
  }

  lemma TouchIsEvents(t: Tree, n: int)
    requires LruOk(t)
    ensures Touch(t, n).lru == Replay(t.lru, TouchEvents(t, n))
  {
    ReplayTwo(t.lru, Used(n), Used(n));
    assert n in t.lru <==> Evictable(t, n);
  }

  lemma PinIsEvents(t: Tree, h: int)
    requires h in t.nodes
    ensures Pin(t, h).lru == Replay(t.lru, [Left(h)])
  {
    ReplayTwo(t.lru, Left(h), Left(h));
    if h !in t.lru { WithoutAbsent(t.lru, h); }
  }

  lemma UnpinIsEvents(t: Tree, h: int)
    requires LruOk(t) && h in t.nodes && t.nodes[h].lock > 0
    ensures Unpin(t, h).lru == Replay(t.lru, UnpinEvents(t, h))
  {
    ReplayTwo(t.lru, Used(h), Used(h));
    assert h in t.lru <==> Evictable(t, h);
    if h !in t.lru { WithoutAbsent(t.lru, h); }
  }

  lemma AddLeafIsEvents(t: Tree, p: int, key: seq<Chunk>, blocks: seq<nat>)
    requires FitsLeaf(t, p, key, blocks) && LruOk(t)
    ensures AddLeaf(t, p, key, blocks).lru == Replay(t.lru, [Left(p), Used(t.next)])
  {
    ReplayTwo(t.lru, Left(p), Used(t.next));
    assert t.next !in t.nodes && t.next !in t.lru;
    WithoutProps(t.lru, p);
    if p !in t.lru { WithoutAbsent(t.lru, p); }
    WithoutAbsent(Without(t.lru, p), t.next);
  }

  lemma EvictIsEvents(t: Tree)
    requires Shape(t) && LruOk(t) && t.lru != []
    ensures EvictOne(t).lru == Replay(t.lru, EvictEvents(t))
  {
    EvictHead(t);
    var n := t.lru[0];
    var p := t.nodes[n].parent;
    ReplayTwo(t.lru, Left(n), Used(p));
    assert t.nodes[n].key[0] in t.nodes[p].children;
    assert p !in t.lru by { assert p in t.lru <==> Evictable(t, p); }
    WithoutAbsent(t.lru[1..], p);
  }

  /** The events of an insertion name the new leaf, which ends the inserted sequence, and its parent. */
  lemma InsertIsEvents(t: Tree, x: seq<Chunk>, bt: seq<nat>)
    requires Shape(t) && LruOk(t) && |x| <= |bt|
    ensures var u, es := Insert(t, x, bt), InsertEvents(t, x);
      && u.lru == Replay(t.lru, es)
      && (es != [] ==>
            && |es| == 2 && es[1].node !in t.nodes && es[1].node in u.nodes
            && u.nodes[es[1].node].path == x && u.nodes[es[1].node].parent == es[0].node)
  {
    hide Walk, UpOk, DownOk;
    var (n, len) := Find(t, x);
    InsertLeafFits(t, x, bt);
    ReplayTwo(t.lru, Left(n), Left(n));
    assert x[..len] + x[len..] == x;
    if len < |t.nodes[n].path| {
      Up(t, n);
      var k := len - t.nodes[n].Start();
      SplitLru(t, n, k);
      SplitList(t, n, k);
      if len < |x| { AddLeafIsEvents(Split(t, n, k), t.next, x[len..], bt[len..|x|]); }
    } else if len < |x| {
      AddLeafIsEvents(t, n, x[len..], bt[len..|x|]);
    }
  }

  lemma SplitList(t: Tree, c: int, k: nat)
    requires Shape(t) && c in t.nodes && c != ROOT && 0 < k < |t.nodes[c].key|
    ensures Split(t, c, k).lru == t.lru && Shape(Split(t, c, k))
  {
    SplitShape(t, c, k);
  }

  lemma {:induction false} ShedIsEvents(t: Tree, need: int)
    requires Shape(t) && LruOk(t)
    ensures Evict(t, need).0.lru == Replay(t.lru, ShedEvents(t, need))
    decreases |t.nodes|
  {
    hide Shape, LruOk, EvictOne, Evict, EvictEvents;
    if need <= 0 || t.lru == [] {
      EvictDone(t, need);
      ReplayTwo(t.lru, Left(0), Left(0));
    } else {
      EvictMore(t, need);
      var (v, rest) := (EvictOne(t), need - |t.nodes[t.lru[0]].blocks|);
      EvictIsEvents(t);
      ShedIsEvents(v, rest);
      ReplayConcat(t.lru, EvictEvents(t), ShedEvents(v, rest));
    }
  }

  // ---------------------------------------------------------------- histories of the tree

  /** What is done to a tree: look up, pin, give a pin back, cut a segment, insert, evict. */
  datatype Op =
    | Look(x: seq<Chunk>)
    | Hold(n: int)
    | Drop(i: nat)
    | Cut(c: int, k: nat)
    | Note(x: seq<Chunk>, bt: seq<nat>)
    | Shed(need: int)

  /** A tree with its outstanding pins. */
  datatype TreeState = TreeState(tree: Tree, pins: seq<int>)

  ghost predicate StateOk(h: TreeState) {
    TreeOk(h.tree, h.pins)
  }

  lemma LookKeeps(h: TreeState, x: seq<Chunk>)
    requires StateOk(h)
    ensures StateOk(h.(tree := Touch(h.tree, Find(h.tree, x).0)))
  {
    var n := Find(h.tree, x).0;
    TouchKeeps(h.tree, n);
    var u := Touch(h.tree, n);
    forall m | m in u.nodes ensures u.nodes[m].lock == Pins(u, h.pins, m) + if m == ROOT then 1 else 0 {
      PinsSame(h.tree, u, h.pins, m, m);
    }
  }

  /** An operation whose arguments make no sense in the present tree changes nothing. */
  function Do(h: TreeState, op: Op): (u: TreeState)
    requires StateOk(h)
    ensures StateOk(u)
  {
    hide Shape, LruOk, PinsOk, Evict, Insert, Split, Touch, Pin, Unpin, Find;
    match op
    case Look(x) => LookKeeps(h, x); h.(tree := Touch(h.tree, Find(h.tree, x).0))
    case Hold(n) =>
      if n in h.tree.nodes then PinKeeps(h.tree, h.pins, n); TreeState(Pin(h.tree, n), h.pins + [n]) else h
    case Drop(i) =>
      if i < |h.pins| then UnpinKeeps(h.tree, h.pins, i); TreeState(Unpin(h.tree, h.pins[i]), h.pins[..i] + h.pins[i + 1..]) else h
    case Cut(c, k) =>
      if c in h.tree.nodes && c != ROOT && 0 < k < |h.tree.nodes[c].key| then
        SplitKeeps(h.tree, c, k, h.pins); h.(tree := Split(h.tree, c, k))
      else h
    case Note(x, bt) =>
      if |x| <= |bt| then InsertKeeps(h.tree, x, bt, h.pins); h.(tree := Insert(h.tree, x, bt)) else h
    case Shed(need) => EvictKeeps(h.tree, need, h.pins); h.(tree := Evict(h.tree, need).0)
  }

  function EventsOf(h: TreeState, op: Op): seq<Event>
    requires StateOk(h)
  {
    match op
    case Look(x) => TouchEvents(h.tree, Find(h.tree, x).0)
    case Hold(n) => if n in h.tree.nodes then [Left(n)] else []
    case Drop(i) => if i < |h.pins| && h.pins[i] in h.tree.nodes then UnpinEvents(h.tree, h.pins[i]) else []
    case Cut(_, _) => []
    case Note(x, bt) => if |x| <= |bt| then InsertEvents(h.tree, x) else []
    case Shed(need) => ShedEvents(h.tree, need)
  }

  lemma DropPinned(h: TreeState, i: nat)
    requires StateOk(h) && i < |h.pins|
    ensures h.pins[i] in h.tree.nodes && h.tree.nodes[h.pins[i]].lock > 0 && LruOk(h.tree)
  {
    PinsPositive(h.tree, h.pins, h.pins[i], i);
  }

  lemma OpIsEvents(h: TreeState, op: Op)
    requires StateOk(h)
    ensures Do(h, op).tree.lru == Replay(h.tree.lru, EventsOf(h, op))
  {
    hide Shape, LruOk, PinsOk, Evict, Insert, Touch, Pin, Unpin, Find, ShedEvents, InsertEvents;
    ReplayTwo(h.tree.lru, Left(0), Left(0));
    match op
    case Look(x) => TouchIsEvents(h.tree, Find(h.tree, x).0);
    case Hold(n) => if n in h.tree.nodes { PinIsEvents(h.tree, n); }
    case Drop(i) =>
      if i < |h.pins| {
        DropPinned(h, i);
        UnpinIsEvents(h.tree, h.pins[i]);
      }
    case Cut(c, k) =>
      if c in h.tree.nodes && c != ROOT && 0 < k < |h.tree.nodes[c].key| { SplitList(h.tree, c, k); }
    case Note(x, bt) => if |x| <= |bt| { InsertIsEvents(h.tree, x, bt); }
    case Shed(need) => ShedIsEvents(h.tree, need);
  }

  lemma EmptyState()
    ensures StateOk(TreeState(EMPTY, []))
  {
    assert PinsOk(EMPTY, []);
    assert LruOk(EMPTY);
  }

  /** The tree after `ops`, from the empty one. */
  function After(ops: seq<Op>): (h: TreeState)
    ensures StateOk(h)
    decreases |ops|
  {
    hide StateOk, Do;
    EmptyState();
    if ops == [] then TreeState(EMPTY, []) else Do(After(ops[..|ops| - 1]), ops[|ops| - 1])
  }

  /** All uses and departures along the way. */
  function AllEvents(ops: seq<Op>): seq<Event>
    decreases |ops|
  {
    if ops == [] then []
    else AllEvents(ops[..|ops| - 1]) + EventsOf(After(ops[..|ops| - 1]), ops[|ops| - 1])
  }

  /** The eviction list is its history replayed. */
  lemma {:induction false} ListIsReplay(ops: seq<Op>)
    ensures After(ops).tree.lru == Replay([], AllEvents(ops))
    decreases |ops|
  {
    hide StateOk, Do, EventsOf, Replay;
    if ops == [] {
      ReplayTwo([], Left(0), Left(0));
    } else {
      var before, op := ops[..|ops| - 1], ops[|ops| - 1];
      ListIsReplay(before);
      OpIsEvents(After(before), op);
      ReplayConcat([], AllEvents(before), EventsOf(After(before), op));
    }
  }

  /**
   Least recently used: after any operations on an empty tree the nodes with a current last use are
   exactly the unpinned leaves, and the eviction list holds each of them once, oldest use first.
   */
  lemma LeastRecentlyUsed(ops: seq<Op>)
    ensures var t, es := After(ops).tree, AllEvents(ops);
      && (forall n :: Evictable(t, n) <==> LastUse(es, n) >= 0)
      && (forall n :: n in t.lru <==> LastUse(es, n) >= 0)
      && (forall i, j :: 0 <= i < j < |t.lru| ==> LastUse(es, t.lru[i]) < LastUse(es, t.lru[j]))
  {
    ListIsReplay(ops);
    OrderedByLastUse(AllEvents(ops));
    var t := After(ops).tree;
    hide Evictable, LastUse, Replay, AllEvents, After;
    forall n ensures Evictable(t, n) <==> n in t.lru { StateList(After(ops), n); }
  }

  lemma StateList(h: TreeState, n: int)
    requires StateOk(h)
    ensures n in h.tree.lru <==> Evictable(h.tree, n)
  {}
}
