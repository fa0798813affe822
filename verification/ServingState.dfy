/**
 The state of the serving loop and what every reachable state satisfies: who owns which block,
 which tree nodes are pinned, and where each request's cursor stands.
 */
module ServingState {
  import opened Basics
  import opened Tokens
  import opened PoolSpec
  import opened CacheSpec
  import opened RadixSpec
  import opened RadixUpdate
  import opened RadixInsertEvict

  /** The key and value data one slot holds, over all layers. */
  type Cell = int

  /**
   A deployment. `kv` and `next` are the model: the cell written for a token given the cells of
   all earlier positions, and the token chosen from all cells. `reserve` is the admission reserve
   for a number of tokens still to be generated. `floored` and `cutAtCursor` select, for the tree
   insert and for the finishing step, the documented behaviour over the written one.
   */
  datatype Config = Config(
    bs: nat, maxLen: int, useRadix: bool, floored: bool, cutAtCursor: bool,
    reserve: int -> int, kv: (seq<Cell>, Token) -> Cell, next: seq<Cell> -> Token)

  datatype Phase = Waiting | Running | Finished

  /** `pin` is the tree node the request holds; `shared` counts the blocks it adopted from the tree. */
  datatype Req = Req(
    id: nat, prompt: seq<Token>, gen: seq<Token>, maxTokens: int, eos: Token,
    phase: Phase, kv: Kv, pin: Option<int>, shared: nat)
  {
    function Seq(): seq<Token> { prompt + gen }
  }

  predicate ConfigOk(cfg: Config) { cfg.bs >= 2 }

  // ---------------------------------------------------------------- sums over requests

  function HandleOf(r: Req): seq<int> {
    if r.pin.Some? then [r.pin.value] else []
  }

  function Handles(rs: seq<Req>): seq<int> {
    if rs == [] then [] else HandleOf(rs[0]) + Handles(rs[1..])
  }

  /** How often block `b` occurs in the block tables of `rs`. */
  function Occ(rs: seq<Req>, b: nat): nat {
    if rs == [] then 0 else Count(rs[0].kv.table, b) + Occ(rs[1..], b)
  }

  lemma {:induction false} HandlesConcat(a: seq<Req>, c: seq<Req>)
    ensures Handles(a + c) == Handles(a) + Handles(c)
  {
    if a == [] {
      assert a + c == c;
    } else {
      assert (a + c)[1..] == a[1..] + c;
      HandlesConcat(a[1..], c);
    }
  }

  lemma {:induction false} OccConcat(a: seq<Req>, c: seq<Req>, b: nat)
    ensures Occ(a + c, b) == Occ(a, b) + Occ(c, b)
  {
    if a == [] {
      assert a + c == c;
    } else {
      assert (a + c)[1..] == a[1..] + c;
      OccConcat(a[1..], c, b);
    }
  }

  lemma CutHandles(rs: seq<Req>, i: nat)
    requires i <= |rs|
    ensures Handles(rs) == Handles(rs[..i]) + Handles(rs[i..])
  {
    HandlesConcat(rs[..i], rs[i..]);
    hide Handles;
    assert rs[..i] + rs[i..] == rs;
  }

  lemma FirstHandle(rs: seq<Req>, i: nat)
    requires i < |rs|
    ensures Handles(rs[i..]) == HandleOf(rs[i]) + Handles(rs[i + 1..])
  {
    assert rs[i..][1..] == rs[i + 1..];
    hide HandleOf;
  }

  lemma SplitHandles(rs: seq<Req>, i: nat)
    requires i < |rs|
    ensures Handles(rs) == Handles(rs[..i]) + HandleOf(rs[i]) + Handles(rs[i + 1..])
    ensures Handles(rs[..i] + rs[i + 1..]) == Handles(rs[..i]) + Handles(rs[i + 1..])
  {
    hide Handles, HandleOf;
    CutHandles(rs, i);
    FirstHandle(rs, i);
    Associative(Handles(rs[..i]), HandleOf(rs[i]), Handles(rs[i + 1..]));
    HandlesConcat(rs[..i], rs[i + 1..]);
  }

  lemma Associative(a: seq<int>, b: seq<int>, c: seq<int>)
    ensures a + (b + c) == a + b + c
  {}

  lemma SplitOcc(rs: seq<Req>, i: nat, b: nat)
    requires i < |rs|
    ensures Occ(rs, b) == Occ(rs[..i], b) + Count(rs[i].kv.table, b) + Occ(rs[i + 1..], b)
    ensures Occ(rs[..i] + rs[i + 1..], b) == Occ(rs[..i], b) + Occ(rs[i + 1..], b)
  {
    hide Count;
    assert rs == rs[..i] + ([rs[i]] + rs[i + 1..]);
    OccConcat(rs[..i], [rs[i]] + rs[i + 1..], b);
    OccConcat([rs[i]], rs[i + 1..], b);
    OccConcat(rs[..i], rs[i + 1..], b);
  }

  /** Cut `rs` at `i`. */
  lemma SplitAt(rs: seq<Req>, i: nat)
    requires i < |rs|
    ensures Handles(rs) == Handles(rs[..i]) + HandleOf(rs[i]) + Handles(rs[i + 1..])
    ensures Handles(rs[..i] + rs[i + 1..]) == Handles(rs[..i]) + Handles(rs[i + 1..])
    ensures forall b :: Occ(rs, b) == Occ(rs[..i], b) + Count(rs[i].kv.table, b) + Occ(rs[i + 1..], b)
    ensures forall b :: Occ(rs[..i] + rs[i + 1..], b) == Occ(rs[..i], b) + Occ(rs[i + 1..], b)
  {
    SplitHandles(rs, i);
    hide Occ, Handles, HandleOf, Count;
    forall b: nat
      ensures Occ(rs, b) == Occ(rs[..i], b) + Count(rs[i].kv.table, b) + Occ(rs[i + 1..], b)
      ensures Occ(rs[..i] + rs[i + 1..], b) == Occ(rs[..i], b) + Occ(rs[i + 1..], b)
    {
      SplitOcc(rs, i, b);
    }
  }

  /** Replacing request `i` changes the sums by the difference. */
  lemma OccUpdate(rs: seq<Req>, i: nat, r: Req, b: nat)
    requires i < |rs|
    ensures Occ(rs[i := r], b) == Occ(rs, b) - Count(rs[i].kv.table, b) + Count(r.kv.table, b)
  {
    SplitAt(rs, i);
    SplitAt(rs[i := r], i);
    assert rs[i := r][..i] == rs[..i] && rs[i := r][i + 1..] == rs[i + 1..];
  }

  lemma HandlesUpdate(rs: seq<Req>, i: nat, r: Req)
    requires i < |rs| && r.pin == rs[i].pin
    ensures Handles(rs[i := r]) == Handles(rs)
  {
    SplitAt(rs, i);
    SplitAt(rs[i := r], i);
    assert rs[i := r][..i] == rs[..i] && rs[i := r][i + 1..] == rs[i + 1..];
  }

  lemma OccAtLeast(rs: seq<Req>, i: nat, b: nat)
    requires i < |rs|
    ensures Count(rs[i].kv.table, b) <= Occ(rs, b)
  {
    SplitAt(rs, i);
  }

  lemma OccTwo(rs: seq<Req>, i: nat, j: nat, b: nat)
    requires i < |rs| && j < |rs| && i != j
    ensures Count(rs[i].kv.table, b) + Count(rs[j].kv.table, b) <= Occ(rs, b)
  {
    SplitAt(rs, i);
    if j < i { OccAtLeast(rs[..i], j, b); } else { OccAtLeast(rs[i + 1..], j - i - 1, b); }
  }

  lemma {:induction false} OccZero(rs: seq<Req>, b: nat)
    requires forall i :: 0 <= i < |rs| ==> Count(rs[i].kv.table, b) == 0
    ensures Occ(rs, b) == 0
  {
    if rs != [] { OccZero(rs[1..], b); }
  }

  // ---------------------------------------------------------------- ownership

  /** Number of owners of block `b`: table entries of running requests, plus the tree. */
  ghost function Owners(t: Tree, rs: seq<Req>, b: nat): nat {
    Occ(rs, b) + if Held(t, b) then 1 else 0
  }

  /** Reference counts are exactly the owners; nothing outside the pool is owned. */
  ghost predicate Owned(p: Pool, t: Tree, rs: seq<Req>, lost: seq<nat>) {
    forall b: nat :: Owners(t, rs, b) + Count(lost, b) == if b < |p.ref| then p.ref[b] else 0
  }

  /** The adopted prefix: pinned, and still recorded in the tree under the request's own tokens. */
  ghost predicate Adopted(cfg: Config, t: Tree, r: Req)
    requires ConfigOk(cfg)
  {
    && r.shared <= |r.kv.table|
    && (r.shared > 0 ==> r.pin.Some?)
    && (r.pin.Some? ==>
          && r.pin.value in t.nodes && r.shared <= |Chunks(r.Seq(), cfg.bs)|
          && Chunks(r.Seq(), cfg.bs)[..r.shared] <= t.nodes[r.pin.value].path)
    && (forall i {:trigger r.kv.table[i]} :: 0 <= i < r.shared ==>
          i < |Chunks(r.Seq(), cfg.bs)| && Entry(t, Chunks(r.Seq(), cfg.bs)[..i + 1], r.kv.table[i]))
  }

  /** Every block past the adopted prefix belongs to this request alone. */
  ghost predicate Exclusive(t: Tree, rs: seq<Req>, r: Req, lost: seq<nat>) {
    forall j {:trigger r.kv.table[j]} :: r.shared <= j < |r.kv.table| ==>
      Occ(rs, r.kv.table[j]) == 1 && !Held(t, r.kv.table[j]) && Count(lost, r.kv.table[j]) == 0
  }

  /**
   Pool, tree and running requests fit together. `extra` are handles held by a request that is
   being admitted; request number `skip` is in the middle of finishing and is exempt.
   */
  ghost predicate Core(cfg: Config, p: Pool, t: Tree, rs: seq<Req>, extra: seq<int>, skip: int, lost: seq<nat>)
    requires ConfigOk(cfg)
  {
    && PoolOk(p)
    && TreeOk(t, Handles(rs) + extra)
    && Injective(t)
    && Owned(p, t, rs, lost)
    && (forall i {:trigger rs[i]} :: 0 <= i < |rs| && i != skip ==> Adopted(cfg, t, rs[i]) && Exclusive(t, rs, rs[i], lost))
  }

  // ---------------------------------------------------------------- tree changes that keep the map

  ghost predicate SameMap(t: Tree, u: Tree) {
    && t.nodes.Keys == u.nodes.Keys
    && (forall n {:trigger t.nodes[n]} {:trigger u.nodes[n]} :: n in t.nodes ==>
          u.nodes[n].path == t.nodes[n].path && u.nodes[n].key == t.nodes[n].key && u.nodes[n].blocks == t.nodes[n].blocks)
  }

  lemma SameMapEntry(t: Tree, u: Tree, x: seq<Chunk>, b: nat)
    requires SameMap(t, u) && Entry(t, x, b)
    ensures Entry(u, x, b)
  {
    var n :| Covers(t, n, x) && EntryAt(t, n, x, b);
    assert Covers(u, n, x) && EntryAt(u, n, x, b);
  }

  lemma SameMapHeld(t: Tree, u: Tree)
    requires SameMap(t, u)
    ensures forall b :: Held(t, b) <==> Held(u, b)
    ensures forall x, b :: Entry(t, x, b) <==> Entry(u, x, b)
    ensures Injective(t) ==> Injective(u)
  {
    forall x, b ensures Entry(t, x, b) <==> Entry(u, x, b) {
      if Entry(t, x, b) { SameMapEntry(t, u, x, b); }
      if Entry(u, x, b) { SameMapEntry(u, t, x, b); }
    }
  }

  lemma SameMapPath(t: Tree, u: Tree, n: int)
    requires SameMap(t, u) && n in t.nodes
    ensures n in u.nodes && u.nodes[n].path == t.nodes[n].path
  {}

  lemma AdoptedSameMap(cfg: Config, t: Tree, u: Tree, r: Req)
    requires ConfigOk(cfg) && Adopted(cfg, t, r) && SameMap(t, u)
    ensures Adopted(cfg, u, r)
  {
    SameMapHeld(t, u);
    if r.pin.Some? { SameMapPath(t, u, r.pin.value); }
    AdoptedFrame(cfg, t, u, r);
  }

  lemma AdoptedFrame(cfg: Config, t: Tree, u: Tree, r: Req)
    requires ConfigOk(cfg) && Adopted(cfg, t, r)
    requires r.pin.Some? ==>
      (r.pin.value in u.nodes && r.pin.value in t.nodes
       && u.nodes[r.pin.value].path == t.nodes[r.pin.value].path)
    requires forall x, b :: Entry(t, x, b) && x <= Chunks(r.Seq(), cfg.bs)[..r.shared] ==> Entry(u, x, b)
    ensures Adopted(cfg, u, r)
  {
    var c := Chunks(r.Seq(), cfg.bs);
    forall i {:trigger r.kv.table[i]} | 0 <= i < r.shared
      ensures i < |c| && Entry(u, c[..i + 1], r.kv.table[i])
    {
      var b := r.kv.table[i];
      assert c[..i + 1] <= c[..r.shared];
    }
  }
}
