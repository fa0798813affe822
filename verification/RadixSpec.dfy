/**
 The radix prefix tree as a value: nodes addressed by identity, each holding a segment of
 whole blocks. A `Chunk` is the token content of one block; the tree never looks inside it.
 `path` is the full chunk sequence from the root to the end of a node's segment: it is
 determined by the parent links and makes every argument about the tree a prefix argument.
 */
module RadixSpec {
  import opened Basics

  type Chunk = seq<int>

  datatype Node = Node(
    path: seq<Chunk>,
    key: seq<Chunk>,
    blocks: seq<nat>,
    parent: int,
    children: map<Chunk, int>,
    lock: int)
  {
    function Start(): int { |path| - |key| }
  }

  /** `lru` lists the evictable leaves, oldest first; `evictable` is the running counter. */
  datatype Tree = Tree(nodes: map<int, Node>, lru: seq<int>, evictable: int, next: int)

  const ROOT: int := 0

  const EMPTY: Tree := Tree(map[ROOT := Node([], [], [], -1, map[], 1)], [], 0, 1)

  // ---------------------------------------------------------------- shape

  predicate RootOk(t: Tree) {
    && ROOT in t.nodes
    && t.nodes[ROOT].path == [] && t.nodes[ROOT].key == []
    && t.nodes[ROOT].blocks == [] && t.nodes[ROOT].parent == -1
  }

  predicate UpOk(t: Tree, n: int)
    requires n in t.nodes
  {
    var x := t.nodes[n];
    && x.parent in t.nodes
    && x.path == t.nodes[x.parent].path + x.key
    && 0 < |x.key| == |x.blocks|
    && x.key[0] in t.nodes[x.parent].children
    && t.nodes[x.parent].children[x.key[0]] == n
  }

  predicate DownOk(t: Tree, n: int, f: Chunk)
    requires n in t.nodes && f in t.nodes[n].children
  {
    var c := t.nodes[n].children[f];
    c in t.nodes && c != ROOT && t.nodes[c].parent == n && 0 < |t.nodes[c].key| && t.nodes[c].key[0] == f
  }

  ghost predicate Shape(t: Tree) {
    && RootOk(t)
    && (forall n :: n in t.nodes ==> 0 <= n < t.next)
    && (forall n {:trigger UpOk(t, n)} :: n in t.nodes && n != ROOT ==> UpOk(t, n))
    && (forall n, f {:trigger DownOk(t, n, f)} :: n in t.nodes && f in t.nodes[n].children ==> DownOk(t, n, f))
  }

  lemma Up(t: Tree, n: int)
    requires Shape(t) && n in t.nodes && n != ROOT
    ensures UpOk(t, n) && t.nodes[n].Start() >= 0 && 0 < |t.nodes[n].path|
  {
    var ok := UpOk(t, n);
    assert ok;
  }

  lemma Down(t: Tree, n: int, f: Chunk)
    requires Shape(t) && n in t.nodes && f in t.nodes[n].children
    ensures DownOk(t, n, f)
  {
    var ok := DownOk(t, n, f);
    assert ok;
  }

  lemma SameNodes(t: Tree, u: Tree)
    requires Shape(t) && u.nodes == t.nodes && u.next == t.next
    ensures Shape(u)
  {
    forall n | n in u.nodes && n != ROOT ensures UpOk(u, n) { Up(t, n); }
    forall n, f | n in u.nodes && f in u.nodes[n].children ensures DownOk(u, n, f) { Down(t, n, f); }
  }

  predicate Anc(t: Tree, n: int, m: int)
    requires n in t.nodes && m in t.nodes
  {
    t.nodes[n].path <= t.nodes[m].path
  }

  /** Node `n` covers the prefix `x`: its own segment contains the last chunk of `x`. */
  predicate Covers(t: Tree, n: int, x: seq<Chunk>)
  {
    n in t.nodes && 0 <= t.nodes[n].Start() < |x| && x <= t.nodes[n].path
  }

  lemma {:induction false} CoverUnique(t: Tree, n: int, m: int, x: seq<Chunk>)
    requires Shape(t) && Covers(t, n, x) && Covers(t, m, x)
    ensures n == m
    decreases |x|
  {
    var a, b := t.nodes[n].Start(), t.nodes[m].Start();
    Up(t, n);
    Up(t, m);
    var p, q := t.nodes[n].parent, t.nodes[m].parent;
    if p != ROOT { Up(t, p); }
    if q != ROOT { Up(t, q); }
    if a < b {
      CoverUnique(t, n, q, x[..b]);
    } else if b < a {
      CoverUnique(t, p, m, x[..a]);
    } else {
      assert t.nodes[p].path == x[..a] == t.nodes[q].path;
      if a == 0 {
        assert p == ROOT && q == ROOT;
      } else {
        CoverUnique(t, p, q, x[..a]);
      }
      assert t.nodes[n].key[0] == x[a] == t.nodes[m].key[0];
    }
  }

  /** The node covering a prefix of `m`'s path is an ancestor of `m` (or `m` itself). */
  lemma {:induction false} CoverIsAncestor(t: Tree, n: int, m: int, x: seq<Chunk>)
    requires Shape(t) && Covers(t, n, x) && m in t.nodes && x <= t.nodes[m].path
    ensures Anc(t, n, m)
    decreases |t.nodes[m].path|
  {
    if m != ROOT { Up(t, m); }
    if t.nodes[m].Start() < |x| {
      CoverUnique(t, n, m, x);
    } else {
      CoverIsAncestor(t, n, t.nodes[m].parent, x);
    }
  }

  /** Walking up from `m` meets exactly the nodes whose path is a prefix of `m`'s path. */
  lemma AncStep(t: Tree, n: int, m: int)
    requires Shape(t) && n in t.nodes && m in t.nodes && m != ROOT
    ensures UpOk(t, m)
    ensures Anc(t, n, m) <==> n == m || Anc(t, n, t.nodes[m].parent)
  {
    Up(t, m);
    if Anc(t, n, m) && |t.nodes[n].path| > t.nodes[m].Start() {
      Up(t, n);
      CoverUnique(t, n, m, t.nodes[n].path);
    }
  }

  lemma PathUnique(t: Tree, n: int, m: int)
    requires Shape(t) && n in t.nodes && m in t.nodes && t.nodes[n].path == t.nodes[m].path
    ensures n == m
  {
    if n != ROOT { Up(t, n); }
    if m != ROOT { Up(t, m); }
    if n != ROOT && m != ROOT {
      CoverUnique(t, n, m, t.nodes[n].path);
    }
  }

  // ---------------------------------------------------------------- the prefix map

  /** The tree maps the chunk prefix `x` to block `b`. */
  ghost predicate Entry(t: Tree, x: seq<Chunk>, b: nat)
  {
    exists n :: Covers(t, n, x) && EntryAt(t, n, x, b)
  }

  predicate EntryAt(t: Tree, n: int, x: seq<Chunk>, b: nat)
    requires Covers(t, n, x)
  {
    var i := |x| - 1 - t.nodes[n].Start();
    i < |t.nodes[n].blocks| && t.nodes[n].blocks[i] == b
  }

  ghost predicate Cached(t: Tree, x: seq<Chunk>) {
    exists n :: Covers(t, n, x)
  }

  lemma EntryUnique(t: Tree, x: seq<Chunk>, b: nat, c: nat)
    requires Shape(t) && Entry(t, x, b) && Entry(t, x, c)
    ensures b == c
  {
    var n :| Covers(t, n, x) && EntryAt(t, n, x, b);
    var m :| Covers(t, m, x) && EntryAt(t, m, x, c);
    CoverUnique(t, n, m, x);
  }

  lemma {:induction false} CoverOfPrefix(t: Tree, m: int, y: seq<Chunk>) returns (n: int)
    requires Shape(t) && m in t.nodes && 0 < |y| && y <= t.nodes[m].path
    ensures Covers(t, n, y) && Anc(t, n, m) && n != ROOT && UpOk(t, n)
    decreases |t.nodes[m].path|
  {
    Up(t, m);
    if t.nodes[m].Start() < |y| {
      n := m;
    } else {
      n := CoverOfPrefix(t, t.nodes[m].parent, y);
    }
  }

  /** The map is prefix-closed, and every covered prefix has a block. */
  lemma PrefixClosed(t: Tree, x: seq<Chunk>, y: seq<Chunk>)
    requires Shape(t) && Cached(t, x) && 0 < |y| && y <= x
    ensures Cached(t, y) && exists b :: Entry(t, y, b)
  {
    var m :| Covers(t, m, x);
    assert y <= t.nodes[m].path;
    var n := CoverOfPrefix(t, m, y);
    assert Covers(t, n, y);
    var b := t.nodes[n].blocks[|y| - 1 - t.nodes[n].Start()];
    assert EntryAt(t, n, y, b);
    assert Entry(t, y, b);
  }

  /** All blocks from the root down to the end of node `n`. */
  function PathBlocks(t: Tree, n: int): (r: seq<nat>)
    requires Shape(t) && n in t.nodes
    ensures |r| == |t.nodes[n].path|
    decreases |t.nodes[n].path|
  {
    if n == ROOT then [] else
      Up(t, n);
      PathBlocks(t, t.nodes[n].parent) + t.nodes[n].blocks
  }

  /** Position `i` of the root path carries the block the map gives the prefix of length `i + 1`. */
  lemma {:induction false} PathBlocksAt(t: Tree, n: int, i: nat)
    requires Shape(t) && n in t.nodes && i < |t.nodes[n].path|
    ensures Entry(t, t.nodes[n].path[..i + 1], PathBlocks(t, n)[i])
    decreases |t.nodes[n].path|
  {
    Up(t, n);
    var x := t.nodes[n].path[..i + 1];
    var s := t.nodes[n].Start();
    if s <= i {
      assert Covers(t, n, x) && EntryAt(t, n, x, PathBlocks(t, n)[i]);
    } else {
      var p := t.nodes[n].parent;
      PathBlocksAt(t, p, i);
      assert t.nodes[p].path[..i + 1] == x;
    }
  }

  // ---------------------------------------------------------------- match_prefix

  /** Length of the longest common prefix. */
  function Common<T(==)>(a: seq<T>, b: seq<T>): (k: nat)
    ensures k <= |a| && k <= |b| && a[..k] == b[..k]
    ensures k < |a| && k < |b| ==> a[k] != b[k]
  {
    if |a| == 0 || |b| == 0 || a[0] != b[0] then 0 else
      var k := Common(a[1..], b[1..]);
      assert a[..k + 1] == [a[0]] + a[1..][..k] == [b[0]] + b[1..][..k] == b[..k + 1];
      k + 1
  }

  predicate OnWay(t: Tree, now: int, x: seq<Chunk>) {
    now in t.nodes && 0 <= t.nodes[now].Start() <= |x| && x[..t.nodes[now].Start()] == t.nodes[now].path[..t.nodes[now].Start()]
  }

  /** Where a lookup of `x` stops: the node, and how many chunks of `x` matched. */
  predicate StopsAt(t: Tree, x: seq<Chunk>, n: int, len: nat) {
    && n in t.nodes
    && len <= |x| && len <= |t.nodes[n].path| && x[..len] == t.nodes[n].path[..len]
    && (n == ROOT ==> len == 0)
    && (n != ROOT ==> 0 <= t.nodes[n].Start() < len)
    && (len == |x|
        || (len < |t.nodes[n].path| && t.nodes[n].path[len] != x[len])
        || (len == |t.nodes[n].path| && x[len] !in t.nodes[n].children))
  }

  /** The code's test for descending: the whole segment matched and there is a child to follow. */
  predicate Descends(t: Tree, now: int, x: seq<Chunk>, m: nat) {
    now in t.nodes && 0 <= t.nodes[now].Start() && m == |t.nodes[now].key|
    && t.nodes[now].Start() + m < |x| && x[t.nodes[now].Start() + m] in t.nodes[now].children
  }

  lemma PathSplit(t: Tree, n: int)
    requires Shape(t) && n in t.nodes
    ensures 0 <= t.nodes[n].Start()
    ensures t.nodes[n].path[t.nodes[n].Start()..] == t.nodes[n].key
  {
    if n != ROOT { Up(t, n); }
  }

  lemma WalkMatches(t: Tree, now: int, x: seq<Chunk>, m: nat)
    requires Shape(t) && OnWay(t, now, x)
    requires m == Common(t.nodes[now].key, x[t.nodes[now].Start()..])
    ensures t.nodes[now].Start() + m <= |t.nodes[now].path|
    ensures x[..t.nodes[now].Start() + m] == t.nodes[now].path[..t.nodes[now].Start() + m]
  {
    var y := t.nodes[now];
    var s := y.Start();
    PathSplit(t, now);
    assert x[..s + m] == x[..s] + x[s..][..m];
    assert y.path[..s + m] == y.path[..s] + y.path[s..][..m];
  }

  lemma WalkDescends(t: Tree, now: int, x: seq<Chunk>, m: nat)
    requires Shape(t) && OnWay(t, now, x)
    requires m == Common(t.nodes[now].key, x[t.nodes[now].Start()..])
    requires Descends(t, now, x, m)
    ensures var c := t.nodes[now].children[x[t.nodes[now].Start() + m]];
      && OnWay(t, c, x) && c != ROOT && t.nodes[c].Start() == t.nodes[now].Start() + m
      && Common(t.nodes[c].key, x[t.nodes[c].Start()..]) > 0
  {
    var y := t.nodes[now];
    var s := y.Start();
    WalkMatches(t, now, x, m);
    Down(t, now, x[s + m]);
    var c := y.children[x[s + m]];
    Up(t, c);
    assert t.nodes[c].path[..s + m] == y.path == x[..s + m];
  }

  lemma WalkStops(t: Tree, now: int, x: seq<Chunk>, m: nat)
    requires Shape(t) && OnWay(t, now, x)
    requires m == Common(t.nodes[now].key, x[t.nodes[now].Start()..])
    requires now != ROOT ==> 0 < m
    requires !Descends(t, now, x, m)
    ensures StopsAt(t, x, now, t.nodes[now].Start() + m)
  {
    var y := t.nodes[now];
    var s := y.Start();
    WalkMatches(t, now, x, m);
    if m < |y.key| && s + m < |x| {
      PathSplit(t, now);
      assert y.path[s..][m] == y.key[m] && x[s..][m] == x[s + m];
    }
  }

  function Walk(t: Tree, now: int, x: seq<Chunk>): (r: (int, nat))
    requires Shape(t) && OnWay(t, now, x)
    requires now != ROOT ==> Common(t.nodes[now].key, x[t.nodes[now].Start()..]) > 0
    ensures StopsAt(t, x, r.0, r.1)
    decreases |x| - t.nodes[now].Start(), if now == ROOT then 1 else 0
  {
    var y := t.nodes[now];
    var m := Common(y.key, x[y.Start()..]);
    var len := y.Start() + m;
    PathSplit(t, now);
    if m < |y.key| || len == |x| || x[len] !in y.children then WalkStops(t, now, x, m); (now, len)
    else WalkDescends(t, now, x, m); Walk(t, y.children[x[len]], x)
  }

  function Find(t: Tree, x: seq<Chunk>): (r: (int, nat))
    requires Shape(t)
    ensures StopsAt(t, x, r.0, r.1)
  {
    Walk(t, ROOT, x)
  }

  lemma StopBlocksBelow(t: Tree, x: seq<Chunk>, n: int, len: nat, k: int)
    requires Shape(t) && StopsAt(t, x, n, len) && len < |x|
    requires k in t.nodes && t.nodes[k].Start() < len
    ensures !Covers(t, k, x[..len + 1])
  {
    if Covers(t, k, x[..len + 1]) {
      assert x[..len + 1][..len] == x[..len];
      CoverUnique(t, n, k, x[..len]);
      assert false;
    }
  }

  lemma StopBlocksAt(t: Tree, x: seq<Chunk>, n: int, len: nat, k: int)
    requires Shape(t) && StopsAt(t, x, n, len) && len < |x|
    requires k in t.nodes && t.nodes[k].Start() == len
    ensures !Covers(t, k, x[..len + 1])
  {
    if Covers(t, k, x[..len + 1]) {
      Up(t, k);
      var p := t.nodes[k].parent;
      assert t.nodes[k].path[len] == x[..len + 1][len] == x[len];
      assert t.nodes[p].path == t.nodes[k].path[..len] == x[..len];
      if p != ROOT { Up(t, p); }
      if n != ROOT {
        CoverUnique(t, n, p, x[..len]);
      }
      assert false;
    }
  }

  /** Nothing longer than the stopping length is cached. */
  lemma StopIsLongest(t: Tree, x: seq<Chunk>, n: int, len: nat, j: nat)
    requires Shape(t) && StopsAt(t, x, n, len) && len < j <= |x|
    ensures !Cached(t, x[..j])
  {
    if Cached(t, x[..j]) {
      var m :| Covers(t, m, x[..j]);
      var y := x[..len + 1];
      assert y == x[..j][..len + 1];
      assert y <= t.nodes[m].path;
      var k := CoverOfPrefix(t, m, y);
      if t.nodes[k].Start() < len {
        StopBlocksBelow(t, x, n, len, k);
      } else {
        StopBlocksAt(t, x, n, len, k);
      }
    }
  }

  /** Two stopping points of the same lookup coincide, so any correct walk is `Find`. */
  lemma StopUnique(t: Tree, x: seq<Chunk>, n: int, len: nat, m: int, len': nat)
    requires Shape(t) && StopsAt(t, x, n, len) && StopsAt(t, x, m, len')
    ensures n == m && len == len'
  {
    if len < len' {
      StopIsLongest(t, x, n, len, len');
      assert m != ROOT && Covers(t, m, x[..len']);
      assert false;
    } else if len' < len {
      StopIsLongest(t, x, m, len', len);
      assert n != ROOT && Covers(t, n, x[..len]);
      assert false;
    } else if n != ROOT && m != ROOT {
      CoverUnique(t, n, m, x[..len]);
    }
  }

  function Matched(t: Tree, x: seq<Chunk>): (r: seq<nat>)
    requires Shape(t)
  {
    var (n, len) := Find(t, x);
    assert x[..len] <= t.nodes[n].path;
    PathBlocks(t, n)[..len]
  }

  /** `match_prefix` returns the blocks of the longest cached prefix, in order. */
  lemma MatchLongest(t: Tree, x: seq<Chunk>)
    requires Shape(t)
    ensures var r := Matched(t, x);
      && |r| <= |x|
      && (forall i {:trigger r[i]} :: 0 <= i < |r| ==> Entry(t, x[..i + 1], r[i]))
      && (forall j {:trigger Cached(t, x[..j])} :: |r| < j <= |x| ==> !Cached(t, x[..j]))
  {
    var (n, len) := Find(t, x);
    var r := Matched(t, x);
    assert x[..len] <= t.nodes[n].path && |r| == len;
    forall i {:trigger r[i]} | 0 <= i < |r| ensures Entry(t, x[..i + 1], r[i]) {
      PathBlocksAt(t, n, i);
      assert t.nodes[n].path[..i + 1] == x[..i + 1];
    }
    forall j {:trigger Cached(t, x[..j])} | |r| < j <= |x| ensures !Cached(t, x[..j]) {
      StopIsLongest(t, x, n, len, j);
    }
  }

  // ---------------------------------------------------------------- least-recently-used list

  function Without(s: seq<int>, n: int): (r: seq<int>) {
    if s == [] then [] else if s[0] == n then s[1..] else [s[0]] + Without(s[1..], n)
  }

  function Weight(t: Tree, s: seq<int>): (r: nat)
    requires forall n :: n in s ==> n in t.nodes
  {
    if s == [] then 0 else
      var n := s[0];
      assert n in s;
      |t.nodes[n].blocks| + Weight(t, s[1..])
  }

  predicate Evictable(t: Tree, n: int) {
    n in t.nodes && n != ROOT && t.nodes[n].children == map[] && t.nodes[n].lock == 0
  }

  /** A node is on the list iff it is an unpinned non-root leaf; the counter is their total size. */
  ghost predicate LruOk(t: Tree) {
    && NoDup(t.lru)
    && (forall n :: n in t.lru <==> Evictable(t, n))
    && t.evictable == Weight(t, t.lru)
  }

  lemma {:induction false} WithoutProps(s: seq<int>, n: int)
    requires NoDup(s)
    ensures NoDup(Without(s, n))
    ensures forall m :: m in Without(s, n) <==> m in s && m != n
  {
    if s != [] && s[0] != n {
      WithoutProps(s[1..], n);
      assert forall m :: m in s <==> m == s[0] || m in s[1..];
      assert s[0] !in s[1..];
    } else if s != [] {
      assert forall m :: m in s <==> m == s[0] || m in s[1..];
    }
  }

  lemma {:induction false} WeightAppend(t: Tree, s: seq<int>, n: int)
    requires (forall m :: m in s ==> m in t.nodes) && n in t.nodes
    ensures Weight(t, s + [n]) == Weight(t, s) + |t.nodes[n].blocks|
  {
    if s == [] {
      assert s + [n] == [n];
    } else {
      assert (s + [n])[1..] == s[1..] + [n];
      WeightAppend(t, s[1..], n);
    }
  }

  lemma {:induction false} WeightWithout(t: Tree, s: seq<int>, n: int)
    requires NoDup(s) && n in s && forall m :: m in s ==> m in t.nodes
    ensures forall m :: m in Without(s, n) ==> m in t.nodes
    ensures Weight(t, Without(s, n)) == Weight(t, s) - |t.nodes[n].blocks|
  {
    WithoutProps(s, n);
    if s[0] != n {
      WeightWithout(t, s[1..], n);
      assert Without(s, n)[1..] == Without(s[1..], n);
    }
  }

  /** The counter only depends on the sizes of the listed nodes. */
  lemma {:induction false} WeightSame(t: Tree, u: Tree, s: seq<int>)
    requires forall m :: m in s ==> m in t.nodes && m in u.nodes && |t.nodes[m].blocks| == |u.nodes[m].blocks|
    ensures Weight(t, s) == Weight(u, s)
  {
    if s != [] {
      var n := s[0];
      assert n in s;
      WeightSame(t, u, s[1..]);
    }
  }

  /** `move_to_back` of a listed node; a node not on the list is left alone. */
  function Touch(t: Tree, n: int): Tree {
    if n in t.lru then t.(lru := Without(t.lru, n) + [n]) else t
  }

  lemma TouchKeeps(t: Tree, n: int)
    requires LruOk(t)
    ensures LruOk(Touch(t, n)) && Touch(t, n).nodes == t.nodes
    ensures Shape(t) ==> Shape(Touch(t, n))
  {
    if n in t.lru {
      var u := Touch(t, n);
      WithoutProps(t.lru, n);
      WeightWithout(t, t.lru, n);
      WeightAppend(t, Without(t.lru, n), n);
      WeightSame(t, u, u.lru);
      if Shape(t) { SameNodes(t, u); }
    }
  }
}
