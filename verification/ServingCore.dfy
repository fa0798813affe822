/**
 What each elementary operation of the serving loop does to ownership and pins: releasing a
 request, pinning a match, evicting, forking a prefix, allocating, and recording a finished
 sequence in the tree.
 */
module ServingCore {
  import opened Basics
  import opened Tokens
  import opened PoolSpec
  import opened CacheSpec
  import opened RadixSpec
  import opened RadixUpdate
  import opened RadixInsertEvict
  import opened ServingState

  /** A tree with the same map and the right pins can replace the old one. */
  lemma CoreFrame(cfg: Config, p: Pool, t: Tree, u: Tree, rs: seq<Req>, extra: seq<int>, extra': seq<int>, skip: int, lost: seq<nat>)
    requires ConfigOk(cfg) && Core(cfg, p, t, rs, extra, skip, lost)
    requires SameMap(t, u) && TreeOk(u, Handles(rs) + extra')
    ensures Core(cfg, p, u, rs, extra', skip, lost)
  {
    SameMapHeld(t, u);
    forall i {:trigger rs[i]} | 0 <= i < |rs| && i != skip
      ensures Adopted(cfg, u, rs[i]) && Exclusive(u, rs, rs[i], lost)
    {
      AdoptedSameMap(cfg, t, u, rs[i]);
    }
    forall b: nat ensures Owners(u, rs, b) == Owners(t, rs, b) {}
  }

  // ---------------------------------------------------------------- match: only the list order moves

  lemma CoreTouch(cfg: Config, p: Pool, t: Tree, rs: seq<Req>, extra: seq<int>, n: int, lost: seq<nat>)
    requires ConfigOk(cfg) && Core(cfg, p, t, rs, extra, -1, lost)
    ensures Core(cfg, p, Touch(t, n), rs, extra, -1, lost)
  {
    var u := Touch(t, n);
    TouchKeeps(t, n);
    SameMapHeld(t, u);
    PinsOkSame(t, u, Handles(rs) + extra);
    CoreFrame(cfg, p, t, u, rs, extra, extra, -1, lost);
  }

  lemma PinsOkSame(t: Tree, u: Tree, hs: seq<int>)
    requires PinsOk(t, hs) && u.nodes == t.nodes
    ensures PinsOk(u, hs)
  {
    forall n | n in u.nodes ensures u.nodes[n].lock == Pins(u, hs, n) + if n == ROOT then 1 else 0 {
      PinsSame(t, u, hs, n, n);
    }
  }

  // ---------------------------------------------------------------- pin and unpin of the request being admitted

  lemma PinSame(t: Tree, h: int)
    requires h in t.nodes
    ensures SameMap(t, Pin(t, h))
  {}

  lemma CorePin(cfg: Config, p: Pool, t: Tree, rs: seq<Req>, h: int, lost: seq<nat>)
    requires ConfigOk(cfg) && Core(cfg, p, t, rs, [], -1, lost) && h in t.nodes
    ensures Core(cfg, p, Pin(t, h), rs, [h], -1, lost)
  {
    assert Handles(rs) + [] == Handles(rs);
    PinKeeps(t, Handles(rs), h);
    PinSame(t, h);
    hide Core, TreeOk, SameMap, Pin;
    CoreFrame(cfg, p, t, Pin(t, h), rs, [], [h], -1, lost);
  }

  lemma CoreUnpin(cfg: Config, p: Pool, t: Tree, rs: seq<Req>, h: int, lost: seq<nat>)
    requires ConfigOk(cfg) && Core(cfg, p, t, rs, [h], -1, lost)
    ensures h in t.nodes && Core(cfg, p, Unpin(t, h), rs, [], -1, lost)
  {
    var hs := Handles(rs) + [h];
    var i := |Handles(rs)|;
    UnpinKeeps(t, hs, i);
    assert hs[i] == h && hs[..i] + hs[i + 1..] == Handles(rs) + [];
    UnpinSame(t, h);
    hide Core, TreeOk, SameMap, Unpin;
    CoreFrame(cfg, p, t, Unpin(t, h), rs, [h], [], -1, lost);
  }

  // ---------------------------------------------------------------- releasing a request

  function UnpinOf(t: Tree, r: Req): Tree
    requires r.pin.Some? ==> r.pin.value in t.nodes
  {
    if r.pin.Some? then Unpin(t, r.pin.value) else t
  }

  lemma UnpinSame(t: Tree, h: int)
    requires h in t.nodes
    ensures SameMap(t, Unpin(t, h))
  {}

  lemma UnpinOfKeeps(t: Tree, a: seq<int>, r: Req, c: seq<int>)
    requires TreeOk(t, a + HandleOf(r) + c)
    ensures r.pin.Some? ==> r.pin.value in t.nodes
    ensures TreeOk(UnpinOf(t, r), a + c) && SameMap(t, UnpinOf(t, r))
  {
    hide TreeOk, SameMap, Unpin;
    if r.pin.Some? {
      var hs := a + HandleOf(r) + c;
      UnpinKeeps(t, hs, |a|);
      assert hs[|a|] == r.pin.value && hs[..|a|] + hs[|a| + 1..] == a + c;
      UnpinSame(t, r.pin.value);
    } else {
      assert a + HandleOf(r) + c == a + c;
      MapSelf(t);
    }
  }

  lemma MapSelf(t: Tree)
    ensures SameMap(t, t)
  {}

  /** Dropping request `i`: its references go back to the pool, everybody else keeps theirs. */
  lemma CoreRelease(cfg: Config, p: Pool, t: Tree, rs: seq<Req>, i: nat, lost: seq<nat>)
    requires ConfigOk(cfg) && i < |rs| && Core(cfg, p, t, rs, [], i, lost)
    ensures rs[i].pin.Some? ==> rs[i].pin.value in t.nodes
    ensures Free(p, rs[i].kv.table).0 && |p.free| <= |Free(p, rs[i].kv.table).1.free|
    ensures Core(cfg, Free(p, rs[i].kv.table).1, UnpinOf(t, rs[i]), rs[..i] + rs[i + 1..], [], -1, lost)
  {
    hide Adopted, Exclusive, Owned, TreeOk, Held, Entry, UnpinOf, SameMap, Free, Handles;
    ReleasePins(t, rs, i);
    var u := UnpinOf(t, rs[i]);
    var rest := rs[..i] + rs[i + 1..];
    SameMapHeld(t, u);
    ReleaseCovered(p, t, rs, i, lost);
    FreeKeeps(p, rs[i].kv.table);
    ReleaseOwned(p, t, u, rs, i, lost);
    forall j {:trigger rest[j]} | 0 <= j < |rest| ensures Adopted(cfg, u, rest[j]) && Exclusive(u, rest, rest[j], lost) {
      var k := if j < i then j else j + 1;
      assert rest[j] == rs[k];
      AdoptedSameMap(cfg, t, u, rs[k]);
      ReleaseExclusive(t, u, rs, i, k, j, lost);
    }
  }

  lemma ReleasePins(t: Tree, rs: seq<Req>, i: nat)
    requires i < |rs| && TreeOk(t, Handles(rs) + [])
    ensures rs[i].pin.Some? ==> rs[i].pin.value in t.nodes
    ensures TreeOk(UnpinOf(t, rs[i]), Handles(rs[..i] + rs[i + 1..]) + []) && SameMap(t, UnpinOf(t, rs[i]))
  {
    SplitAt(rs, i);
    assert Handles(rs) + [] == Handles(rs[..i]) + HandleOf(rs[i]) + Handles(rs[i + 1..]);
    UnpinOfKeeps(t, Handles(rs[..i]), rs[i], Handles(rs[i + 1..]));
    var rest := rs[..i] + rs[i + 1..];
    assert Handles(rest) + [] == Handles(rest);
  }

  lemma ReleaseOwned(p: Pool, t: Tree, u: Tree, rs: seq<Req>, i: nat, lost: seq<nat>)
    requires PoolOk(p) && i < |rs| && Owned(p, t, rs, lost) && Covered(p, rs[i].kv.table)
    requires forall b :: Held(t, b) <==> Held(u, b)
    ensures Owned(Free(p, rs[i].kv.table).1, u, rs[..i] + rs[i + 1..], lost)
  {
    var rest := rs[..i] + rs[i + 1..];
    FreeKeeps(p, rs[i].kv.table);
    SplitAt(rs, i);
    var q := Free(p, rs[i].kv.table).1;
    forall b: nat ensures Owners(u, rest, b) + Count(lost, b) == if b < |q.ref| then q.ref[b] else 0 {
      assert Owners(t, rs, b) + Count(lost, b) == if b < |p.ref| then p.ref[b] else 0;
      assert Occ(rest, b) == Occ(rs, b) - Count(rs[i].kv.table, b);
    }
  }

  lemma ReleaseCovered(p: Pool, t: Tree, rs: seq<Req>, i: nat, lost: seq<nat>)
    requires i < |rs| && Owned(p, t, rs, lost)
    ensures Covered(p, rs[i].kv.table)
  {
    var ids := rs[i].kv.table;
    forall b: nat ensures Count(ids, b) <= if b < |p.ref| then p.ref[b] else 0 {
      OccAtLeast(rs, i, b);
      assert Owners(t, rs, b) + Count(lost, b) == if b < |p.ref| then p.ref[b] else 0;
    }
    forall j | 0 <= j < |ids| ensures ids[j] < |p.ref| {
      CountZero(ids, ids[j]);
    }
  }

  lemma ReleaseExclusive(t: Tree, u: Tree, rs: seq<Req>, i: nat, k: nat, j: nat, lost: seq<nat>)
    requires i < |rs| && k < |rs| && k != i && Exclusive(t, rs, rs[k], lost)
    requires forall b :: Held(t, b) <==> Held(u, b)
    requires var rest := rs[..i] + rs[i + 1..]; j < |rest| && rest[j] == rs[k]
    ensures Exclusive(u, rs[..i] + rs[i + 1..], rs[k], lost)
  {
    var rest := rs[..i] + rs[i + 1..];
    var r := rs[k];
    forall m {:trigger r.kv.table[m]} | r.shared <= m < |r.kv.table|
      ensures Occ(rest, r.kv.table[m]) == 1 && !Held(u, r.kv.table[m]) && Count(lost, r.kv.table[m]) == 0
    {
      var b := r.kv.table[m];
      assert Occ(rs, b) == 1 && !Held(t, b) && Count(lost, b) == 0;
      CountZero(r.kv.table, b);
      OccTwo(rs, i, k, b);
      SplitAt(rs, i);
    }
  }

  // ---------------------------------------------------------------- eviction

  lemma HandleIndex(rs: seq<Req>, j: nat, extra: seq<int>) returns (i: nat)
    requires j < |rs| && rs[j].pin.Some?
    ensures i < |Handles(rs) + extra| && (Handles(rs) + extra)[i] == rs[j].pin.value
  {
    SplitAt(rs, j);
    i := |Handles(rs[..j])|;
  }

  /** A block under an unpinned node appears in no block table. */
  lemma UnpinnedUnowned(cfg: Config, p: Pool, t: Tree, rs: seq<Req>, extra: seq<int>, x: seq<Chunk>, b: nat, lost: seq<nat>)
    requires ConfigOk(cfg) && Core(cfg, p, t, rs, extra, -1, lost)
    requires Entry(t, x, b) && Unpinned(t, x)
    ensures Occ(rs, b) == 0
  {
    forall j | 0 <= j < |rs| ensures Count(rs[j].kv.table, b) == 0 {
      var r := rs[j];
      forall m | 0 <= m < |r.kv.table| ensures r.kv.table[m] != b {
        if r.kv.table[m] == b {
          assert Held(t, b);
          assert m < r.shared;
          var c := Chunks(r.Seq(), cfg.bs);
          SamePrefix(t, x, c[..m + 1], b);
          assert c[..m + 1] <= c[..r.shared];
          var i := HandleIndex(rs, j, extra);
          PinnedPrefix(t, Handles(rs) + extra, i, x);
          assert false;
        }
      }
      CountZero(r.kv.table, b);
    }
    OccZero(rs, b);
  }

  lemma EvictSingle(cfg: Config, p: Pool, t: Tree, rs: seq<Req>, extra: seq<int>, need: int, i: nat, lost: seq<nat>)
    requires ConfigOk(cfg) && Core(cfg, p, t, rs, extra, -1, lost) && i < |Evict(t, need).1|
    ensures var b := Evict(t, need).1[i];
      b < |p.ref| && p.ref[b] == 1 + Count(lost, b) && Occ(rs, b) == 0 && Held(t, b) && !Held(Evict(t, need).0, b)
  {
    var b := Evict(t, need).1[i];
    var x := EvictFreed(t, need, i);
    UnpinnedUnowned(cfg, p, t, rs, extra, x, b, lost);
    assert Held(t, b);
    assert Owners(t, rs, b) == 1;
    assert Owners(t, rs, b) + Count(lost, b) == if b < |p.ref| then p.ref[b] else 0;
  }

  /** How many of `ids` have references nobody holds. */
  function Stray(ids: seq<nat>, lost: seq<nat>): (k: nat)
    ensures k <= |ids|
  {
    if ids == [] then 0 else (if Count(lost, ids[0]) > 0 then 1 else 0) + Stray(ids[1..], lost)
  }

  lemma {:induction false} NoStray(ids: seq<nat>)
    ensures Stray(ids, []) == 0
  {
    if ids != [] { NoStray(ids[1..]); }
  }

  lemma {:induction false} SinglesStray(p: Pool, ids: seq<nat>, lost: seq<nat>)
    requires forall i :: 0 <= i < |ids| ==> ids[i] < |p.ref| && p.ref[ids[i]] == 1 + Count(lost, ids[i])
    ensures Singles(p, ids) == |ids| - Stray(ids, lost)
  {
    if ids != [] { SinglesStray(p, ids[1..], lost); }
  }

  /**
   What eviction really frees: of the blocks it counts, those with a lost reference stay allocated;
   all others had the tree as their only owner. Without lost references the return value of
   `evict` is exact. Nothing a request adopted is lost.
   */
  lemma CoreEvict(cfg: Config, p: Pool, t: Tree, rs: seq<Req>, extra: seq<int>, need: int, lost: seq<nat>)
    requires ConfigOk(cfg) && Core(cfg, p, t, rs, extra, -1, lost)
    ensures var (u, freed) := Evict(t, need); var q := Free(p, freed).1;
      && Free(p, freed).0 && |q.free| == |p.free| + |freed| - Stray(freed, lost)
      && (lost == [] ==> |q.free| == |p.free| + |freed|)
      && Core(cfg, q, u, rs, extra, -1, lost)
  {
    var (u, freed) := Evict(t, need);
    var q := Free(p, freed).1;
    forall i | 0 <= i < |freed| ensures freed[i] < |p.ref| && p.ref[freed[i]] == 1 + Count(lost, freed[i]) {
      EvictSingle(cfg, p, t, rs, extra, need, i, lost);
    }
    forall i, j | 0 <= i < j < |freed| ensures freed[i] != freed[j] { EvictFreedDistinct(t, need, i, j); }
    FreeGrows(p, freed);
    SinglesStray(p, freed, lost);
    NoStray(freed);
    FreeOkIff(p, freed);
    FreeKeeps(p, freed);
    EvictKeeps(t, need, Handles(rs) + extra);
    EvictKeepsInjective(t, need);
    forall b: nat ensures Owners(u, rs, b) + Count(lost, b) == if b < |q.ref| then q.ref[b] else 0 {
      EvictOwners(cfg, p, t, rs, extra, need, b, lost);
    }
    forall i {:trigger rs[i]} | 0 <= i < |rs| ensures Adopted(cfg, u, rs[i]) && Exclusive(u, rs, rs[i], lost) {
      EvictAdopted(cfg, p, t, rs, extra, need, i, lost);
      EvictExclusive(t, rs, need, rs[i], lost);
    }
  }

  lemma EvictOwners(cfg: Config, p: Pool, t: Tree, rs: seq<Req>, extra: seq<int>, need: int, b: nat, lost: seq<nat>)
    requires ConfigOk(cfg) && Core(cfg, p, t, rs, extra, -1, lost)
    requires Covered(p, Evict(t, need).1)
    ensures var (u, freed) := Evict(t, need); var q := Free(p, freed).1;
      Owners(u, rs, b) + Count(lost, b) == if b < |q.ref| then q.ref[b] else 0
  {
    var (u, freed) := Evict(t, need);
    FreeKeeps(p, freed);
    forall i, j | 0 <= i < j < |freed| ensures freed[i] != freed[j] { EvictFreedDistinct(t, need, i, j); }
    CountDistinct(freed, b);
    assert Owners(t, rs, b) + Count(lost, b) == if b < |p.ref| then p.ref[b] else 0;
    if b in freed {
      var i :| 0 <= i < |freed| && freed[i] == b;
      EvictSingle(cfg, p, t, rs, extra, need, i, lost);
    } else {
      if Held(t, b) {
        var x :| Entry(t, x, b);
        EvictRemoves(t, need, x, b);
        assert Entry(u, x, b);
      }
      if Held(u, b) {
        var x :| Entry(u, x, b);
        EvictRemoves(t, need, x, b);
      }
    }
  }

  lemma EvictAdopted(cfg: Config, p: Pool, t: Tree, rs: seq<Req>, extra: seq<int>, need: int, i: nat, lost: seq<nat>)
    requires ConfigOk(cfg) && Core(cfg, p, t, rs, extra, -1, lost) && i < |rs|
    ensures Adopted(cfg, Evict(t, need).0, rs[i])
  {
    var u := Evict(t, need).0;
    var r := rs[i];
    assert Adopted(cfg, t, r);
    if r.pin.Some? {
      var k := HandleIndex(rs, i, extra);
      EvictKeeps(t, need, Handles(rs) + extra);
      EvictPaths(t, need, r.pin.value);
      forall x, b | Entry(t, x, b) && x <= Chunks(r.Seq(), cfg.bs)[..r.shared] ensures Entry(u, x, b) {
        PinnedPrefix(t, Handles(rs) + extra, k, x);
        EvictRemoves(t, need, x, b);
      }
      AdoptedFrame(cfg, t, u, r);
    }
  }

  lemma EvictExclusive(t: Tree, rs: seq<Req>, need: int, r: Req, lost: seq<nat>)
    requires Shape(t) && LruOk(t) && Exclusive(t, rs, r, lost)
    ensures Exclusive(Evict(t, need).0, rs, r, lost)
  {
    var u := Evict(t, need).0;
    forall j {:trigger r.kv.table[j]} | r.shared <= j < |r.kv.table|
      ensures Occ(rs, r.kv.table[j]) == 1 && !Held(u, r.kv.table[j]) && Count(lost, r.kv.table[j]) == 0
    {
      var b := r.kv.table[j];
      if Held(u, b) {
        var x :| Entry(u, x, b);
        EvictRemoves(t, need, x, b);
        assert Held(t, b);
      }
    }
  }

  // ---------------------------------------------------------------- admission: fork the matched prefix

  /** A newly admitted request: its table is exactly the adopted prefix. */
  lemma CoreFork(cfg: Config, p: Pool, t: Tree, rs: seq<Req>, r: Req, lost: seq<nat>)
    requires ConfigOk(cfg) && Core(cfg, p, t, rs, HandleOf(r), -1, lost)
    requires Adopted(cfg, t, r) && |r.kv.table| == r.shared
    ensures Ref(p, r.kv.table).0 && Ref(p, r.kv.table).1.free == p.free
    ensures Core(cfg, Ref(p, r.kv.table).1, t, rs + [r], [], -1, lost)
  {
    hide Adopted, Exclusive, Owned, Injective, PoolOk, Occ, Held;
    var ids := r.kv.table;
    var all := rs + [r];
    ForkedHeld(cfg, p, t, rs, r, lost);
    RefKeeps(p, ids);
    HandlesConcat(rs, [r]);
    assert Handles([r]) == HandleOf(r);
    assert Handles(all) + [] == Handles(rs) + HandleOf(r);
    ForkOwned(p, t, rs, r, lost);
    forall i {:trigger all[i]} | 0 <= i < |all| ensures Adopted(cfg, t, all[i]) && Exclusive(t, all, all[i], lost) {
      if i < |rs| {
        assert all[i] == rs[i] && Adopted(cfg, t, rs[i]) && Exclusive(t, rs, rs[i], lost);
        ForkExclusive(t, rs, r, rs[i], lost);
      } else {
        NothingExclusive(t, all, r, lost);
      }
    }
  }

  lemma NothingExclusive(t: Tree, rs: seq<Req>, r: Req, lost: seq<nat>)
    requires |r.kv.table| == r.shared
    ensures Exclusive(t, rs, r, lost)
  {}

  /** The adopted blocks are recorded, so they are allocated. */
  lemma ForkedHeld(cfg: Config, p: Pool, t: Tree, rs: seq<Req>, r: Req, lost: seq<nat>)
    requires ConfigOk(cfg) && Owned(p, t, rs, lost) && Adopted(cfg, t, r) && |r.kv.table| == r.shared
    ensures forall i :: 0 <= i < |r.kv.table| ==> Allocated(p, r.kv.table[i]) && Held(t, r.kv.table[i])
  {
    var ids := r.kv.table;
    hide Occ, Chunks;
    forall i | 0 <= i < |ids| ensures Allocated(p, ids[i]) && Held(t, ids[i]) {
      var b := ids[i];
      assert Entry(t, Chunks(r.Seq(), cfg.bs)[..i + 1], b);
      assert Held(t, b);
      assert Owners(t, rs, b) + Count(lost, b) == if b < |p.ref| then p.ref[b] else 0;
    }
  }

  lemma ForkOwned(p: Pool, t: Tree, rs: seq<Req>, r: Req, lost: seq<nat>)
    requires PoolOk(p) && Owned(p, t, rs, lost)
    requires forall i :: 0 <= i < |r.kv.table| ==> Allocated(p, r.kv.table[i])
    ensures Owned(Ref(p, r.kv.table).1, t, rs + [r], lost)
  {
    RefKeeps(p, r.kv.table);
    var q := Ref(p, r.kv.table).1;
    forall b: nat ensures Owners(t, rs + [r], b) + Count(lost, b) == if b < |q.ref| then q.ref[b] else 0 {
      OccConcat(rs, [r], b);
      assert Owners(t, rs, b) + Count(lost, b) == if b < |p.ref| then p.ref[b] else 0;
      CountZero(r.kv.table, b);
    }
  }

  lemma ForkExclusive(t: Tree, rs: seq<Req>, r: Req, o: Req, lost: seq<nat>)
    requires Exclusive(t, rs, o, lost) && forall i :: 0 <= i < |r.kv.table| ==> Held(t, r.kv.table[i])
    ensures Exclusive(t, rs + [r], o, lost)
  {
    forall j {:trigger o.kv.table[j]} | o.shared <= j < |o.kv.table|
      ensures Occ(rs + [r], o.kv.table[j]) == 1 && !Held(t, o.kv.table[j]) && Count(lost, o.kv.table[j]) == 0
    {
      var b := o.kv.table[j];
      OccConcat(rs, [r], b);
      CountZero(r.kv.table, b);
    }
  }

  /** References taken on recorded blocks for nobody. */
  lemma CoreLeak(cfg: Config, p: Pool, t: Tree, rs: seq<Req>, extra: seq<int>, ids: seq<nat>, lost: seq<nat>)
    requires ConfigOk(cfg) && Core(cfg, p, t, rs, extra, -1, lost) && forall i :: 0 <= i < |ids| ==> Held(t, ids[i])
    ensures Ref(p, ids).0 && Ref(p, ids).1.free == p.free && Core(cfg, Ref(p, ids).1, t, rs, extra, -1, lost + ids)
  {
    hide TreeOk, Injective, Occ, Held, Adopted;
    forall i | 0 <= i < |ids| ensures Allocated(p, ids[i]) {
      assert Owners(t, rs, ids[i]) + Count(lost, ids[i]) == if ids[i] < |p.ref| then p.ref[ids[i]] else 0;
    }
    RefKeeps(p, ids);
    var q := Ref(p, ids).1;
    forall b: nat ensures Owners(t, rs, b) + Count(lost + ids, b) == if b < |q.ref| then q.ref[b] else 0 {
      CountConcat(lost, ids, b);
      CountZero(ids, b);
      assert Owners(t, rs, b) + Count(lost, b) == if b < |p.ref| then p.ref[b] else 0;
    }
    forall i {:trigger rs[i]} | 0 <= i < |rs| ensures Adopted(cfg, t, rs[i]) && Exclusive(t, rs, rs[i], lost + ids) {
      LeakExclusive(t, rs, rs[i], ids, lost);
    }
  }

  lemma LeakExclusive(t: Tree, rs: seq<Req>, r: Req, ids: seq<nat>, lost: seq<nat>)
    requires Exclusive(t, rs, r, lost) && forall i :: 0 <= i < |ids| ==> Held(t, ids[i])
    ensures Exclusive(t, rs, r, lost + ids)
  {
    hide Held, Occ;
    forall j {:trigger r.kv.table[j]} | r.shared <= j < |r.kv.table|
      ensures Occ(rs, r.kv.table[j]) == 1 && !Held(t, r.kv.table[j]) && Count(lost + ids, r.kv.table[j]) == 0
    {
      var b := r.kv.table[j];
      assert Occ(rs, b) == 1 && !Held(t, b) && Count(lost, b) == 0;
      CountConcat(lost, ids, b);
      CountZero(ids, b);
    }
  }

  // ---------------------------------------------------------------- allocation for a running request

  /** `r` is request `i` with `k` new blocks appended. */
  ghost predicate Grown(cfg: Config, p: Pool, o: Req, r: Req, k: nat) {
    && k <= |p.free|
    && r.kv.table == o.kv.table + p.free[..k]
    && r.pin == o.pin && r.shared == o.shared && r.prompt == o.prompt && r.gen == o.gen
  }

  lemma CoreAlloc(cfg: Config, p: Pool, t: Tree, rs: seq<Req>, i: nat, r: Req, k: nat, lost: seq<nat>)
    requires ConfigOk(cfg) && i < |rs| && Core(cfg, p, t, rs, [], -1, lost) && Grown(cfg, p, rs[i], r, k)
    ensures Core(cfg, Alloc(p, k), t, rs[i := r], [], -1, lost)
    ensures forall j :: |rs[i].kv.table| <= j < |r.kv.table| ==> r.kv.table[j] < |p.ref| && p.ref[r.kv.table[j]] == 0
  {
    hide Held, Entry, Occ, TreeOk, Injective, Exclusive, Adopted;
    var q := Alloc(p, k);
    var all := rs[i := r];
    AllocKeeps(p, k);
    HandlesUpdate(rs, i, r);
    forall b: nat ensures Owners(t, all, b) + Count(lost, b) == if b < |q.ref| then q.ref[b] else 0 { AllocOwned(p, t, rs, i, r, k, b, lost); }
    forall m {:trigger all[m]} | 0 <= m < |all| ensures Adopted(cfg, t, all[m]) && Exclusive(t, all, all[m], lost) {
      assert Adopted(cfg, t, rs[m]) && Exclusive(t, rs, rs[m], lost);
      if m == i { AllocAdopted(cfg, p, t, rs[i], r, k); }
      AdoptedBound(cfg, t, rs[m]);
      AllocExclusive(cfg, p, t, rs, i, r, k, m, lost);
    }
    forall j | |rs[i].kv.table| <= j < |r.kv.table|
      ensures r.kv.table[j] < |p.ref| && p.ref[r.kv.table[j]] == 0
    {
      assert r.kv.table[j] == p.free[j - |rs[i].kv.table|];
    }
  }

  lemma AdoptedBound(cfg: Config, t: Tree, r: Req)
    requires ConfigOk(cfg) && Adopted(cfg, t, r)
    ensures r.shared <= |r.kv.table|
  {}

  lemma AllocAdopted(cfg: Config, p: Pool, t: Tree, o: Req, r: Req, k: nat)
    requires ConfigOk(cfg) && Adopted(cfg, t, o) && Grown(cfg, p, o, r, k)
    ensures Adopted(cfg, t, r)
  {
    forall j {:trigger r.kv.table[j]} | 0 <= j < r.shared ensures r.kv.table[j] == o.kv.table[j] {}
  }

  lemma AllocOwned(p: Pool, t: Tree, rs: seq<Req>, i: nat, r: Req, k: nat, b: nat, lost: seq<nat>)
    requires i < |rs| && PoolOk(p) && Owned(p, t, rs, lost)
    requires k <= |p.free| && r.kv.table == rs[i].kv.table + p.free[..k]
    ensures Occ(rs[i := r], b) == Occ(rs, b) + Count(p.free[..k], b)
    ensures var q := Alloc(p, k); Owners(t, rs[i := r], b) + Count(lost, b) == if b < |q.ref| then q.ref[b] else 0
  {
    AllocKeeps(p, k);
    OccUpdate(rs, i, r, b);
    CountConcat(rs[i].kv.table, p.free[..k], b);
    assert Owners(t, rs, b) + Count(lost, b) == if b < |p.ref| then p.ref[b] else 0;
    CountZero(p.free[..k], b);
  }

  lemma AllocExclusive(cfg: Config, p: Pool, t: Tree, rs: seq<Req>, i: nat, r: Req, k: nat, m: nat, lost: seq<nat>)
    requires i < |rs| && m < |rs| && PoolOk(p) && Owned(p, t, rs, lost) && Grown(cfg, p, rs[i], r, k)
    requires Exclusive(t, rs, rs[m], lost) && rs[m].shared <= |rs[m].kv.table|
    ensures Exclusive(t, rs[i := r], rs[i := r][m], lost)
  {
    var o := rs[i := r][m];
    forall j {:trigger o.kv.table[j]} | o.shared <= j < |o.kv.table|
      ensures Occ(rs[i := r], o.kv.table[j]) == 1 && !Held(t, o.kv.table[j]) && Count(lost, o.kv.table[j]) == 0
    {
      if j < |rs[m].kv.table| {
        var b := rs[m].kv.table[j];
        assert b == o.kv.table[j] && Occ(rs, b) == 1 && !Held(t, b);
        AllocOld(p, t, rs, i, r, k, b, lost);
      } else {
        assert o.kv.table[j] == p.free[..k][j - |rs[m].kv.table|];
        AllocNew(p, t, rs, i, r, k, j - |rs[m].kv.table|, lost);
      }
    }
  }

  lemma AllocOld(p: Pool, t: Tree, rs: seq<Req>, i: nat, r: Req, k: nat, b: nat, lost: seq<nat>)
    requires i < |rs| && PoolOk(p) && Owned(p, t, rs, lost) && Occ(rs, b) == 1
    requires k <= |p.free| && r.kv.table == rs[i].kv.table + p.free[..k]
    ensures Occ(rs[i := r], b) == 1
  {
    AllocOwned(p, t, rs, i, r, k, b, lost);
    assert Owners(t, rs, b) + Count(lost, b) == if b < |p.ref| then p.ref[b] else 0;
    CountDistinct(p.free[..k], b);
    assert b !in p.free;
  }

  lemma AllocNew(p: Pool, t: Tree, rs: seq<Req>, i: nat, r: Req, k: nat, j: nat, lost: seq<nat>)
    requires i < |rs| && PoolOk(p) && Owned(p, t, rs, lost) && j < k
    requires k <= |p.free| && r.kv.table == rs[i].kv.table + p.free[..k]
    ensures Occ(rs[i := r], p.free[j]) == 1 && !Held(t, p.free[j])
  {
    var b := p.free[j];
    AllocOwned(p, t, rs, i, r, k, b, lost);
    assert Owners(t, rs, b) + Count(lost, b) == if b < |p.ref| then p.ref[b] else 0;
    CountDistinct(p.free[..k], b);
    assert p.free[..k][j] == b;
  }

  /** Growing the token sequence does not disturb the adopted prefix. */
  lemma AdoptedGrow(cfg: Config, t: Tree, o: Req, r: Req)
    requires ConfigOk(cfg) && Adopted(cfg, t, o)
    requires r.kv.table == o.kv.table && r.pin == o.pin && r.shared == o.shared && o.Seq() <= r.Seq()
    ensures Adopted(cfg, t, r)
  {
    ChunksPrefix(r.Seq(), |o.Seq()|, cfg.bs);
    assert r.Seq()[..|o.Seq()|] == o.Seq();
    var c, d := Chunks(o.Seq(), cfg.bs), Chunks(r.Seq(), cfg.bs);
    assert c == d[..|c|];
    if o.pin.Some? { assert c[..o.shared] == d[..o.shared]; }
    forall i {:trigger r.kv.table[i]} | 0 <= i < r.shared
      ensures i < |d| && Entry(t, d[..i + 1], r.kv.table[i])
    {
      var b := o.kv.table[i];
      assert i < |c| && Entry(t, c[..i + 1], b);
      assert c[..i + 1] == d[..i + 1];
    }
  }

  lemma SameTables(rs: seq<Req>, i: nat, r: Req)
    requires i < |rs| && r.kv.table == rs[i].kv.table
    ensures forall b: nat :: Occ(rs[i := r], b) == Occ(rs, b)
  {
    forall b: nat ensures Occ(rs[i := r], b) == Occ(rs, b) { OccUpdate(rs, i, r, b); }
  }

  lemma OwnedSame(p: Pool, t: Tree, rs: seq<Req>, us: seq<Req>, lost: seq<nat>)
    requires Owned(p, t, rs, lost) && forall b: nat :: Occ(us, b) == Occ(rs, b)
    ensures Owned(p, t, us, lost)
  {
    hide Occ, Held;
    forall b: nat ensures Owners(t, us, b) + Count(lost, b) == if b < |p.ref| then p.ref[b] else 0 {
      assert Owners(t, us, b) == Owners(t, rs, b);
    }
  }

  lemma ExclusiveSame(t: Tree, rs: seq<Req>, us: seq<Req>, r: Req, u: Req, lost: seq<nat>)
    requires Exclusive(t, rs, r, lost) && u.kv.table == r.kv.table && u.shared == r.shared
    requires forall b: nat :: Occ(us, b) == Occ(rs, b)
    ensures Exclusive(t, us, u, lost)
  {
    hide Occ, Held;
    forall j {:trigger u.kv.table[j]} | u.shared <= j < |u.kv.table| ensures Occ(us, u.kv.table[j]) == 1 && !Held(t, u.kv.table[j]) && Count(lost, u.kv.table[j]) == 0 {
      var b := r.kv.table[j];
    }
  }

  /** Changing tokens, phase or cursor of a request, but not its table or pin. */
  lemma CoreGrow(cfg: Config, p: Pool, t: Tree, rs: seq<Req>, i: nat, r: Req, lost: seq<nat>)
    requires ConfigOk(cfg) && i < |rs| && Core(cfg, p, t, rs, [], -1, lost)
    requires r.kv.table == rs[i].kv.table && r.pin == rs[i].pin && r.shared == rs[i].shared && rs[i].Seq() <= r.Seq()
    ensures Core(cfg, p, t, rs[i := r], [], -1, lost)
  {
    hide Adopted, Exclusive, Owned, TreeOk, Injective, PoolOk, Occ;
    assert Adopted(cfg, t, rs[i]);
    HandlesUpdate(rs, i, r);
    SameTables(rs, i, r);
    OwnedSame(p, t, rs, rs[i := r], lost);
    AdoptedGrow(cfg, t, rs[i], r);
    forall m {:trigger rs[i := r][m]} | 0 <= m < |rs|
      ensures Adopted(cfg, t, rs[i := r][m]) && Exclusive(t, rs[i := r], rs[i := r][m], lost)
    {
      assert Adopted(cfg, t, rs[m]) && Exclusive(t, rs, rs[m], lost);
      ExclusiveSame(t, rs, rs[i := r], rs[m], rs[i := r][m], lost);
    }
  }

  // ---------------------------------------------------------------- recording a finished sequence

  /** The whole-block sequence `x` request `r` records: covered by its table, starting with what it adopted. */
  predicate Recordable(cfg: Config, r: Req, x: seq<Chunk>)
    requires ConfigOk(cfg)
  {
    && r.shared <= |x| <= |r.kv.table|
    && r.shared <= |Chunks(r.Seq(), cfg.bs)|
    && x[..r.shared] == Chunks(r.Seq(), cfg.bs)[..r.shared]
  }

  /** The insert meets at least the adopted prefix again: it is pinned, so it is still there. */
  lemma AdoptedKnown(cfg: Config, t: Tree, r: Req, x: seq<Chunk>)
    requires ConfigOk(cfg) && Shape(t) && Adopted(cfg, t, r) && Recordable(cfg, r, x)
    ensures r.shared <= Known(t, x)
    ensures forall i :: 0 <= i < r.shared ==> Matched(t, x)[i] == r.kv.table[i]
  {
    var (n, len) := Find(t, x);
    var c := Chunks(r.Seq(), cfg.bs);
    if r.shared > 0 {
      var b := r.kv.table[r.shared - 1];
      assert Entry(t, c[..r.shared - 1 + 1], b);
      assert x[..r.shared] == c[..r.shared - 1 + 1];
      if len < r.shared { StopIsLongest(t, x, n, len, r.shared); }
    }
    MatchLongest(t, x);
    forall i | 0 <= i < r.shared ensures Matched(t, x)[i] == r.kv.table[i] {
      var b := r.kv.table[i];
      assert x[..i + 1] == c[..i + 1] by { assert x[..i + 1] == x[..r.shared][..i + 1]; }
      EntryUnique(t, x[..i + 1], Matched(t, x)[i], b);
    }
  }

  lemma InsertFresh(cfg: Config, p: Pool, t: Tree, rs: seq<Req>, i: nat, x: seq<Chunk>, lost: seq<nat>)
    requires ConfigOk(cfg) && i < |rs| && Core(cfg, p, t, rs, [], -1, lost) && Recordable(cfg, rs[i], x)
    ensures FreshFor(t, x, rs[i].kv.table)
    ensures forall j :: Known(t, x) <= j < |x| ==>
      Occ(rs, rs[i].kv.table[j]) == 1 && Count(rs[i].kv.table, rs[i].kv.table[j]) == 1 && Allocated(p, rs[i].kv.table[j])
  {
    var r := rs[i];
    AdoptedKnown(cfg, t, r, x);
    forall j | Known(t, x) <= j < |x|
      ensures Occ(rs, r.kv.table[j]) == 1 && Count(r.kv.table, r.kv.table[j]) == 1
      ensures Allocated(p, r.kv.table[j]) && !Held(t, r.kv.table[j])
    {
      var b := r.kv.table[j];
      assert Occ(rs, b) == 1 && !Held(t, b) && Count(lost, b) == 0;
      OccAtLeast(rs, i, b);
      CountZero(r.kv.table, b);
      assert Owners(t, rs, b) + Count(lost, b) == if b < |p.ref| then p.ref[b] else 0;
    }
    forall j, k | Known(t, x) <= j < k < |x| ensures r.kv.table[j] != r.kv.table[k] {
      if r.kv.table[j] == r.kv.table[k] { CountTwice(r.kv.table, j, k); }
    }
  }

  /** Recording request `i`'s blocks: the tree becomes a second owner of each newly recorded block. */
  lemma CoreInsert(cfg: Config, p: Pool, t: Tree, rs: seq<Req>, i: nat, x: seq<Chunk>, lost: seq<nat>)
    requires ConfigOk(cfg) && i < |rs| && Core(cfg, p, t, rs, [], -1, lost) && Recordable(cfg, rs[i], x)
    ensures var ids := rs[i].kv.table[Known(t, x)..|x|];
      Ref(p, ids).0 && Ref(p, ids).1.free == p.free
      && Core(cfg, Ref(p, ids).1, Insert(t, x, rs[i].kv.table), rs, [], i, lost)
  {
    var bt := rs[i].kv.table;
    var ids := bt[Known(t, x)..|x|];
    var u := Insert(t, x, bt);
    InsertFresh(cfg, p, t, rs, i, x, lost);
    forall j | 0 <= j < |ids| ensures Allocated(p, ids[j]) && !Held(t, ids[j]) { assert ids[j] == bt[Known(t, x) + j]; }
    forall j, k | 0 <= j < k < |ids| ensures ids[j] != ids[k] { assert bt[Known(t, x) + j] != bt[Known(t, x) + k]; }
    RefKeeps(p, ids);
    InsertKeeps(t, x, bt, Handles(rs) + []);
    InsertInjective(t, x, bt);
    var q := Ref(p, ids).1;
    forall b: nat ensures Owners(u, rs, b) + Count(lost, b) == if b < |q.ref| then q.ref[b] else 0 { InsertOwners(p, t, rs, x, bt, b, lost); }
    forall m {:trigger rs[m]} | 0 <= m < |rs| && m != i ensures Adopted(cfg, u, rs[m]) && Exclusive(u, rs, rs[m], lost) {
      InsertOther(cfg, p, t, rs, i, x, m, lost);
    }
  }

  /** `ids` are new to the tree, allocated and pairwise distinct. */
  ghost predicate NewIds(p: Pool, t: Tree, ids: seq<nat>) {
    && (forall j :: 0 <= j < |ids| ==> Allocated(p, ids[j]) && !Held(t, ids[j]))
    && (forall j, k :: 0 <= j < k < |ids| ==> ids[j] != ids[k])
  }

  lemma InsertOwners(p: Pool, t: Tree, rs: seq<Req>, x: seq<Chunk>, bt: seq<nat>, b: nat, lost: seq<nat>)
    requires Shape(t) && |x| <= |bt| && PoolOk(p) && Owned(p, t, rs, lost) && NewIds(p, t, bt[Known(t, x)..|x|])
    ensures var q := Ref(p, bt[Known(t, x)..|x|]).1;
      Owners(Insert(t, x, bt), rs, b) + Count(lost, b) == if b < |q.ref| then q.ref[b] else 0
  {
    hide Shape, Insert, Held, Known, PoolOk, Occ;
    var ids := bt[Known(t, x)..|x|];
    RefKeeps(p, ids);
    InsertHeld(t, x, bt, b);
    CountDistinct(ids, b);
    assert Owners(t, rs, b) + Count(lost, b) == if b < |p.ref| then p.ref[b] else 0;
    if b in ids {
      var j :| 0 <= j < |ids| && ids[j] == b;
    }
  }

  lemma InsertOther(cfg: Config, p: Pool, t: Tree, rs: seq<Req>, i: nat, x: seq<Chunk>, m: nat, lost: seq<nat>)
    requires ConfigOk(cfg) && i < |rs| && Core(cfg, p, t, rs, [], -1, lost) && Recordable(cfg, rs[i], x)
    requires m < |rs| && m != i
    ensures var u := Insert(t, x, rs[i].kv.table); Adopted(cfg, u, rs[m]) && Exclusive(u, rs, rs[m], lost)
  {
    InsertFresh(cfg, p, t, rs, i, x, lost);
    assert Adopted(cfg, t, rs[m]) && Exclusive(t, rs, rs[m], lost);
    hide Core, Adopted, Exclusive, Insert, Shape;
    InsertAdopted(cfg, t, x, rs[i].kv.table, rs[m]);
    InsertExclusive(t, rs, i, m, x, lost);
  }

  lemma InsertAdopted(cfg: Config, t: Tree, x: seq<Chunk>, bt: seq<nat>, r: Req)
    requires ConfigOk(cfg) && Shape(t) && |x| <= |bt| && Adopted(cfg, t, r)
    ensures Adopted(cfg, Insert(t, x, bt), r)
  {
    var u := Insert(t, x, bt);
    forall y, b | Entry(t, y, b) ensures Entry(u, y, b) { InsertEntry(t, x, bt, y, b); }
    if r.pin.Some? { InsertPath(t, x, bt, r.pin.value); }
    hide Insert, Entry, Shape;
    AdoptedFrame(cfg, t, u, r);
  }

  /** Another request's own blocks are not among those recorded. */
  lemma InsertExclusive(t: Tree, rs: seq<Req>, i: nat, m: nat, x: seq<Chunk>, lost: seq<nat>)
    requires i < |rs| && m < |rs| && m != i && Shape(t) && |x| <= |rs[i].kv.table| && Exclusive(t, rs, rs[m], lost)
    ensures Exclusive(Insert(t, x, rs[i].kv.table), rs, rs[m], lost)
  {
    hide Insert, Shape, Held, Known, Occ;
    var bt, r := rs[i].kv.table, rs[m];
    forall j {:trigger r.kv.table[j]} | r.shared <= j < |r.kv.table|
      ensures Occ(rs, r.kv.table[j]) == 1 && !Held(Insert(t, x, bt), r.kv.table[j]) && Count(lost, r.kv.table[j]) == 0
    {
      var b := r.kv.table[j];
      assert Occ(rs, b) == 1 && !Held(t, b) && Count(lost, b) == 0;
      InsertHeld(t, x, bt, b);
      OccTwo(rs, i, m, b);
      CountZero(r.kv.table, b);
      CountZero(bt, b);
    }
  }

  lemma InsertPath(t: Tree, x: seq<Chunk>, bt: seq<nat>, n: int)
    requires Shape(t) && |x| <= |bt| && n in t.nodes
    ensures n in Insert(t, x, bt).nodes && Insert(t, x, bt).nodes[n].path == t.nodes[n].path
  {
    hide Walk, Split, AddLeaf, UpOk, DownOk;
    var (m, len) := Find(t, x);
    InsertLeafFits(t, x, bt);
    if len < |t.nodes[m].path| {
      Up(t, m);
      var k := len - t.nodes[m].Start();
      SplitAnc(t, m, k, n);
      if len < |x| { AddLeafBasics(Split(t, m, k), t.next, x[len..], bt[len..|x|]); }
    } else if len < |x| {
      AddLeafBasics(t, m, x[len..], bt[len..|x|]);
    }
  }

  // ---------------------------------------------------------------- who owns a block past the adopted prefix

  /**
   A block past the adopted prefix has reference count one: neither the tree nor any other
   request holds it, and the table names it once. Writing it needs no copy.
   */
  lemma SoleOwner(cfg: Config, p: Pool, t: Tree, rs: seq<Req>, i: nat, j: nat, lost: seq<nat>)
    requires ConfigOk(cfg) && Core(cfg, p, t, rs, [], -1, lost) && i < |rs| && rs[i].shared <= j < |rs[i].kv.table|
    ensures var b := rs[i].kv.table[j];
      && b < |p.ref| && p.ref[b] == 1 && !Held(t, b)
      && (forall k :: 0 <= k < |rs[i].kv.table| && k != j ==> rs[i].kv.table[k] != b)
      && (forall m, k :: 0 <= m < |rs| && m != i && 0 <= k < |rs[m].kv.table| ==> rs[m].kv.table[k] != b)
  {
    var r := rs[i];
    var b := r.kv.table[j];
    assert Exclusive(t, rs, r, lost);
    assert Occ(rs, b) == 1 && !Held(t, b) && Count(lost, b) == 0;
    assert Owners(t, rs, b) + Count(lost, b) == if b < |p.ref| then p.ref[b] else 0;
    OccAtLeast(rs, i, b);
    forall k | 0 <= k < |r.kv.table| && k != j ensures r.kv.table[k] != b {
      if r.kv.table[k] == b { if k < j { CountTwice(r.kv.table, k, j); } else { CountTwice(r.kv.table, j, k); } }
    }
    forall m, k | 0 <= m < |rs| && m != i && 0 <= k < |rs[m].kv.table| ensures rs[m].kv.table[k] != b {
      OccTwo(rs, i, m, b);
      CountZero(r.kv.table, b);
      CountZero(rs[m].kv.table, b);
    }
  }

  /** Every block a request names is a block of the pool. */
  lemma TableInPool(cfg: Config, p: Pool, t: Tree, rs: seq<Req>, i: nat, j: nat, lost: seq<nat>)
    requires ConfigOk(cfg) && Core(cfg, p, t, rs, [], -1, lost) && i < |rs| && j < |rs[i].kv.table|
    ensures rs[i].kv.table[j] < |p.ref| && p.ref[rs[i].kv.table[j]] > 0
  {
    var b := rs[i].kv.table[j];
    OccAtLeast(rs, i, b);
    CountZero(rs[i].kv.table, b);
    assert Owners(t, rs, b) + Count(lost, b) == if b < |p.ref| then p.ref[b] else 0;
  }
}
