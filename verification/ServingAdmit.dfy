/**
 One tick up to the forward pass: clearing aborted requests, admission under the block budget,
 and preemption of the latest arrivals when decoding would run out of blocks.
 */
module ServingAdmit {
  import opened Basics
  import opened Tokens
  import opened PoolSpec
  import opened CacheSpec
  import opened RadixSpec
  import opened RadixUpdate
  import opened RadixInsertEvict
  import opened ServingState
  import opened ServingCore
  import opened Serving
  import opened ServingForward

  // ---------------------------------------------------------------- matching and pinning

  function Extra(blocks: seq<nat>, n: int): seq<int> {
    if blocks == [] then [] else [n]
  }

  /** The tree after looking `x` up: list order refreshed, and the node pinned when something matched. */
  function Pinned(t: Tree, x: seq<Chunk>): (r: Tree)
    requires Shape(t)
    ensures Find(t, x).0 in r.nodes
  {
    var n := Find(t, x).0;
    PinIf(Touch(t, n), Matched(t, x), n)
  }

  lemma PinnedMap(t: Tree, x: seq<Chunk>)
    requires Shape(t)
    ensures SameMap(t, Pinned(t, x))
  {}

  lemma PinnedCore(cfg: Config, p: Pool, t: Tree, rs: seq<Req>, x: seq<Chunk>, lost: seq<nat>)
    requires ConfigOk(cfg) && Core(cfg, p, t, rs, [], -1, lost)
    ensures Core(cfg, p, Touch(t, Find(t, x).0), rs, [], -1, lost)
    ensures Core(cfg, p, Pinned(t, x), rs, Extra(Matched(t, x), Find(t, x).0), -1, lost)
  {
    var n := Find(t, x).0;
    CoreTouch(cfg, p, t, rs, [], n, lost);
    CorePin(cfg, p, Touch(t, n), rs, n, lost);
  }

  /** Whatever is evicted next, the matched node stays. */
  lemma PinnedStays(t: Tree, hs: seq<int>, x: seq<Chunk>, need: int)
    requires TreeOk(t, hs)
    ensures var u := Pinned(t, x); Shape(u) && LruOk(u) && Find(t, x).0 in Evict(u, need).0.nodes
  {
    var n := Find(t, x).0;
    var blocks := Matched(t, x);
    PinnedTree(t, hs, x);
    KeepsHandle(Pinned(t, x), hs, blocks, n, need);
  }

  lemma PinnedTree(t: Tree, hs: seq<int>, x: seq<Chunk>)
    requires TreeOk(t, hs)
    ensures TreeOk(Pinned(t, x), hs + Extra(Matched(t, x), Find(t, x).0))
  {
    var n := Find(t, x).0;
    TouchKeeps(t, n);
    PinsOkSame(t, Touch(t, n), hs);
    PinKeeps(Touch(t, n), hs, n);
    assert hs + [] == hs;
  }

  lemma KeepsHandle(t: Tree, hs: seq<int>, blocks: seq<nat>, n: int, need: int)
    requires TreeOk(t, hs + Extra(blocks, n)) && (blocks == [] ==> n == ROOT)
    ensures n in Evict(t, need).0.nodes
  {
    EvictKeeps(t, need, hs + Extra(blocks, n));
    if blocks != [] { assert (hs + [n])[|hs|] == n; }
  }

  /** After the eviction step everything fits; the free list grew by what eviction reported, unless references were lost. */
  lemma EvictedCore(cfg: Config, p: Pool, t: Tree, rs: seq<Req>, x: seq<Chunk>, need: int, lost: seq<nat>)
    requires ConfigOk(cfg) && Core(cfg, p, t, rs, [], -1, lost)
    requires Shape(Pinned(t, x)) && LruOk(Pinned(t, x))
    ensures var (u, freed) := Evict(Pinned(t, x), need); var q := Free(p, freed).1;
      && Core(cfg, q, u, rs, Extra(Matched(t, x), Find(t, x).0), -1, lost)
      && |p.free| <= |q.free| && (lost == [] ==> |q.free| == |p.free| + |freed|) && |q.ref| == |p.ref|
  {
    PinnedCore(cfg, p, t, rs, x, lost);
    CoreEvict(cfg, p, Pinned(t, x), rs, Extra(Matched(t, x), Find(t, x).0), need, lost);
  }

  lemma PinnedSurvives(cfg: Config, t: Tree, hs: seq<int>, n: int, need: int, i: Req)
    requires ConfigOk(cfg) && TreeOk(t, hs + [n]) && Adopted(cfg, t, i) && i.pin == Some(n)
    ensures Adopted(cfg, Evict(t, need).0, i)
  {
    var u := Evict(t, need).0;
    EvictKeeps(t, need, hs + [n]);
    assert (hs + [n])[|hs|] == n;
    EvictPaths(t, need, n);
    forall y, b | Entry(t, y, b) && y <= Chunks(i.Seq(), cfg.bs)[..i.shared] ensures Entry(u, y, b) {
      PinnedPrefix(t, hs + [n], |hs|, y);
      EvictRemoves(t, need, y, b);
    }
    AdoptedFrame(cfg, t, u, i);
  }

  /** Eviction leaves the pinned match in place, so the blocks about to be forked are still recorded. */
  lemma MatchSurvives(cfg: Config, p: Pool, t: Tree, rs: seq<Req>, r: Req, need: int, lost: seq<nat>)
    requires ConfigOk(cfg) && Core(cfg, p, t, rs, [], -1, lost) && Parked(r)
    requires Shape(Pinned(t, LookupKey(cfg, r))) && LruOk(Pinned(t, LookupKey(cfg, r)))
    ensures var x := LookupKey(cfg, r);
      Adopted(cfg, Evict(Pinned(t, x), need).0, Installed(cfg, r, Matched(t, x), Find(t, x).0))
  {
    var x := LookupKey(cfg, r);
    var n := Find(t, x).0;
    var blocks := Matched(t, x);
    var i := Installed(cfg, r, blocks, n);
    MatchFacts(cfg, t, r);
    PinnedMap(t, x);
    AdoptedSameMap(cfg, t, Pinned(t, x), i);
    if blocks != [] {
      PinnedCore(cfg, p, t, rs, x, lost);
      PinnedSurvives(cfg, Pinned(t, x), Handles(rs), n, need, i);
    }
  }

  lemma EmptyStays(x: seq<Chunk>, need: int)
    ensures Shape(EMPTY) && LruOk(EMPTY) && Matched(EMPTY, x) == []
    ensures Touch(EMPTY, Find(EMPTY, x).0) == EMPTY == Pinned(EMPTY, x)
    ensures Evict(EMPTY, need) == (EMPTY, [])
  {
    EmptyHoldsNothing();
    MatchLongest(EMPTY, x);
  }

  // ---------------------------------------------------------------- the admission loop

  /**
   What one admission attempt does: go on, stop, or break off because the matched prefix is too long
   to adopt once it has been forked.
   */
  datatype Attempt = Admitted(sys: Sys, budget: int) | Refused(sys: Sys) | Overflow(sys: Sys)

  /**
   During admission the budget is exactly the free blocks minus what the requests admitted in
   this tick will still be given, as long as no references were lost.
   */
  ghost predicate Budgeted(cfg: Config, s: Sys, budget: int)
    requires ConfigOk(cfg)
  {
    && Inv(cfg, s) && s.pc.Prefilling?
    && 0 <= budget && (s.lost == [] ==> budget == |s.pool.free| - Need(cfg, s.running[|s.running| - s.pc.k..]))
  }

  lemma BudgetedCore(cfg: Config, s: Sys, budget: int)
    requires ConfigOk(cfg) && Budgeted(cfg, s, budget)
    ensures Core(cfg, s.pool, s.tree, s.running, [], -1, s.lost)
    ensures TreeOk(s.tree, Handles(s.running)) && Shape(s.tree) && s.pc.Prefilling?
    ensures s.waiting != [] ==> Parked(s.waiting[0]) && s.waiting[0].Seq() != []
    ensures Unshared(cfg, s)
  {
    assert Handles(s.running) + [] == Handles(s.running);
  }

  lemma TreeParts(t: Tree, hs: seq<int>)
    requires TreeOk(t, hs)
    ensures Shape(t) && LruOk(t) && ROOT in t.nodes
  {}

  /**
   One iteration of the admission loop, on the oldest waiting request. Eviction is asked for the
   shortfall; when there is none it does nothing. On an overflow the match is pinned and forked,
   and the request holds nothing but the pin: it is the next to be released after the running ones.
   */
  function AdmitOne(cfg: Config, s: Sys, budget: int): (r: Attempt)
    requires ConfigOk(cfg) && TreeOk(s.tree, Handles(s.running)) && s.pc.Prefilling?
    requires s.waiting != [] && s.waiting[0].Seq() != []
  {
    hide Shape, LruOk, PinsOk, Evict, Free, Ref, Chunks, CeilDiv, Touch, Pin, Unpin, Walk;
    TreeParts(s.tree, Handles(s.running));
    var r := s.waiting[0];
    var x := LookupKey(cfg, r);
    var n := Find(s.tree, x).0;
    var blocks := Matched(s.tree, x);
    var touched := Touch(s.tree, n);
    var needed := CeilDiv(|r.Seq()|, cfg.bs) - |blocks|;
    if budget + touched.evictable - Reserves(cfg, s.running) - cfg.reserve(Remaining(r)) < needed then
      Refused(s.(tree := touched))
    else
      PinnedStays(s.tree, Handles(s.running), x, needed - budget);
      var (tree, freed) := Evict(Pinned(s.tree, x), needed - budget);
      var pool := Free(s.pool, freed).1;
      var now := budget + |freed|;
      if now < needed then
        Refused(s.(tree := UnpinIf(tree, blocks, n), pool := pool))
      else if blocks != [] && !Adopt(r.kv, blocks, cfg.bs, cfg.maxLen).0 then
        Overflow(s.(tree := tree,
                    pool := Ref(pool, blocks).1,
                    lost := s.lost + blocks,
                    running := s.running + [r.(pin := Some(n))],
                    waiting := s.waiting[1..]))
      else
        Admitted(s.(tree := tree,
                    pool := Ref(pool, blocks).1,
                    running := s.running + [Installed(cfg, r, blocks, n)],
                    waiting := s.waiting[1..],
                    pc := Prefilling(s.pc.k + 1)),
                 now - needed)
  }

  lemma OrderAdmit(a: seq<Req>, w: seq<Req>, r: Req, next: nat)
    requires w != [] && InOrder(a + w, next) && r.id == w[0].id
    ensures InOrder((a + [r]) + w[1..], next)
  {
    var all, old' := (a + [r]) + w[1..], a + w;
    assert |all| == |old'|;
    forall i | 0 <= i < |all| ensures all[i].id == old'[i].id {
      if i > |a| { assert all[i] == w[i - |a|]; }
    }
  }

  lemma RefusedInv(cfg: Config, s: Sys, u: Sys, budget: int)
    requires ConfigOk(cfg) && Budgeted(cfg, s, budget)
    requires u == s.(tree := u.tree, pool := u.pool) && |s.pool.free| <= |u.pool.free| && |u.pool.ref| == |s.pool.ref|
    requires Core(cfg, u.pool, u.tree, s.running, [], -1, u.lost) && (s.tree == EMPTY ==> u.tree == EMPTY)
    ensures Inv(cfg, u) && Funded(cfg, u) && u.pc == s.pc
  {
    hide Core, InOrder, Ready, Pending;
  }

  /** A refused attempt may have evicted, which only adds free blocks. */
  lemma RefusedKeeps(cfg: Config, s: Sys, budget: int)
    requires ConfigOk(cfg) && Budgeted(cfg, s, budget) && s.waiting != []
    requires TreeOk(s.tree, Handles(s.running)) && s.waiting[0].Seq() != [] && AdmitOne(cfg, s, budget).Refused?
    ensures var u := AdmitOne(cfg, s, budget).sys; Inv(cfg, u) && Funded(cfg, u) && u.pc == s.pc
  {
    hide Budgeted, Core, TreeOk, Shape, LruOk, Inv, Funded, Evict, Free, Ref, Find, Walk, Matched, Pinned, Chunks, CeilDiv, Pin, Unpin, Without;
    BudgetedCore(cfg, s, budget);
    var r := s.waiting[0];
    var x := LookupKey(cfg, r);
    var u := AdmitOne(cfg, s, budget).sys;
    var need := CeilDiv(|r.Seq()|, cfg.bs) - |Matched(s.tree, x)| - budget;
    RefusedTree(cfg, s.pool, s.tree, s.running, x, need, s.lost);
    if s.tree == EMPTY { EmptyStays(x, need); }
    RefusedInv(cfg, s, u, budget);
  }

  lemma RefusedTree(cfg: Config, p: Pool, t: Tree, rs: seq<Req>, x: seq<Chunk>, need: int, lost: seq<nat>)
    requires ConfigOk(cfg) && Core(cfg, p, t, rs, [], -1, lost)
    ensures Core(cfg, p, Touch(t, Find(t, x).0), rs, [], -1, lost)
    ensures Shape(Pinned(t, x)) && LruOk(Pinned(t, x))
    ensures var (u, freed) := Evict(Pinned(t, x), need); var q := Free(p, freed).1; var n := Find(t, x).0;
      && |p.free| <= |q.free| && (lost == [] ==> |q.free| == |p.free| + |freed|) && |q.ref| == |p.ref|
      && n in u.nodes && Core(cfg, q, UnpinIf(u, Matched(t, x), n), rs, [], -1, lost)
  {
    PinnedCore(cfg, p, t, rs, x, lost);
    assert Handles(rs) + [] == Handles(rs);
    PinnedStays(t, Handles(rs), x, need);
    EvictedCore(cfg, p, t, rs, x, need, lost);
    var (u, freed) := Evict(Pinned(t, x), need);
    if Matched(t, x) != [] { CoreUnpin(cfg, Free(p, freed).1, u, rs, Find(t, x).0, lost); }
  }

  lemma AdmittedPhases(cfg: Config, s: Sys, u: Sys, i: Req)
    requires ConfigOk(cfg) && Phases(cfg, s) && s.pc.Prefilling? && s.waiting != [] && Pending(cfg, i)
    requires u.running == s.running + [i] && u.waiting == s.waiting[1..] && u.pc == Prefilling(s.pc.k + 1)
    ensures Phases(cfg, u)
  {}

  lemma AdmittedInv(cfg: Config, s: Sys, u: Sys, i: Req, budget: int, left: int)
    requires ConfigOk(cfg) && Budgeted(cfg, s, budget) && s.waiting != [] && Pending(cfg, i) && i.id == s.waiting[0].id
    requires s.tree == EMPTY ==> i.pin.None?
    requires u == s.(tree := u.tree, pool := u.pool, running := s.running + [i], waiting := s.waiting[1..], pc := Prefilling(s.pc.k + 1))
    requires Core(cfg, u.pool, u.tree, u.running, [], -1, u.lost) && |u.pool.ref| == |s.pool.ref| && (s.tree == EMPTY ==> u.tree == EMPTY)
    requires 0 <= left && (s.lost == [] ==> left == budget + (|u.pool.free| - |s.pool.free|) - NeedOf(cfg, i))
    ensures Budgeted(cfg, u, left)
  {
    hide Core;
    OrderAdmit(s.running, s.waiting, i, s.nextId);
    AdmittedPhases(cfg, s, u, i);
    var from := |s.running| - s.pc.k;
    assert u.running[|u.running| - u.pc.k..] == s.running[from..] + [i];
    NeedConcat(cfg, s.running[from..], [i]);
    assert Need(cfg, [i]) == NeedOf(cfg, i);
  }

  lemma CorePins(cfg: Config, p: Pool, t: Tree, rs: seq<Req>, lost: seq<nat>)
    requires ConfigOk(cfg) && Core(cfg, p, t, rs, [], -1, lost)
    ensures TreeOk(t, Handles(rs))
  {
    assert Handles(rs) + [] == Handles(rs);
  }

  lemma AdmittedTree(cfg: Config, p: Pool, t: Tree, rs: seq<Req>, r: Req, need: int, lost: seq<nat>)
    requires ConfigOk(cfg) && Core(cfg, p, t, rs, [], -1, lost) && Parked(r)
    ensures var x := LookupKey(cfg, r);
      && Shape(Pinned(t, x)) && LruOk(Pinned(t, x))
      && var (u, freed) := Evict(Pinned(t, x), need); var q := Ref(Free(p, freed).1, Matched(t, x)).1;
         var i := Installed(cfg, r, Matched(t, x), Find(t, x).0);
      && |p.free| <= |q.free| && (lost == [] ==> |q.free| == |p.free| + |freed|) && |q.ref| == |p.ref|
      && Core(cfg, q, u, rs + [i], [], -1, lost)
  {
    var x := LookupKey(cfg, r);
    hide Core, Shape, LruOk, Adopted, Evict, Free, Ref, Find, Walk, Matched, Pinned, Chunks;
    CorePins(cfg, p, t, rs, lost);
    PinnedStays(t, Handles(rs), x, need);
    EvictedCore(cfg, p, t, rs, x, need, lost);
    MatchSurvives(cfg, p, t, rs, r, need, lost);
    var (u, freed) := Evict(Pinned(t, x), need);
    var i := Installed(cfg, r, Matched(t, x), Find(t, x).0);
    InstalledHolds(cfg, r, Matched(t, x), Find(t, x).0);
    hide Installed, Extra, HandleOf;
    CoreFork(cfg, Free(p, freed).1, u, rs, i, lost);
  }

  lemma InstalledHolds(cfg: Config, r: Req, blocks: seq<nat>, n: int)
    requires Parked(r)
    ensures var i := Installed(cfg, r, blocks, n);
      HandleOf(i) == Extra(blocks, n) && i.kv.table == blocks && |i.kv.table| == i.shared
  {}

  /** An admitted request joins the running list and the budget stays exact. */
  lemma AdmittedKeeps(cfg: Config, s: Sys, budget: int)
    requires ConfigOk(cfg) && Budgeted(cfg, s, budget) && s.waiting != []
    requires TreeOk(s.tree, Handles(s.running)) && s.waiting[0].Seq() != [] && AdmitOne(cfg, s, budget).Admitted?
    ensures var r := AdmitOne(cfg, s, budget); Budgeted(cfg, r.sys, r.budget)
  {
    hide Budgeted, Core, TreeOk, Shape, LruOk, Inv, Adopted, Pending, Evict, Free, Ref, Find, Walk, Matched, Pinned, StopsAt, Chunks, CeilDiv;
    BudgetedCore(cfg, s, budget);
    var r := s.waiting[0];
    var x := LookupKey(cfg, r);
    var need := CeilDiv(|r.Seq()|, cfg.bs) - |Matched(s.tree, x)| - budget;
    MatchFacts(cfg, s.tree, r);
    AdmittedTree(cfg, s.pool, s.tree, s.running, r, need, s.lost);
    if s.tree == EMPTY { EmptyStays(x, need); }
    var a := AdmitOne(cfg, s, budget);
    AdmittedInv(cfg, s, a.sys, Installed(cfg, r, Matched(s.tree, x), Find(s.tree, x).0), budget, a.budget);
  }

  lemma OverflowTree(cfg: Config, p: Pool, t: Tree, rs: seq<Req>, r: Req, need: int, lost: seq<nat>)
    requires ConfigOk(cfg) && Core(cfg, p, t, rs, [], -1, lost) && Parked(r) && Matched(t, LookupKey(cfg, r)) != []
    ensures var x := LookupKey(cfg, r);
      && Shape(Pinned(t, x)) && LruOk(Pinned(t, x))
      && var (u, freed) := Evict(Pinned(t, x), need); var q := Ref(Free(p, freed).1, Matched(t, x)).1;
      && |q.ref| == |p.ref| && Core(cfg, q, u, rs + [r.(pin := Some(Find(t, x).0))], [], -1, lost + Matched(t, x))
      && forall i :: 0 <= i < |Matched(t, x)| ==> Held(u, Matched(t, x)[i])
  {
    var x := LookupKey(cfg, r);
    var (n, blocks) := (Find(t, x).0, Matched(t, x));
    hide Core, Shape, LruOk, Adopted, Evict, Free, Ref, Find, Walk, Matched, Pinned, Chunks, Held;
    CorePins(cfg, p, t, rs, lost);
    PinnedStays(t, Handles(rs), x, need);
    EvictedCore(cfg, p, t, rs, x, need, lost);
    MatchSurvives(cfg, p, t, rs, r, need, lost);
    MatchFacts(cfg, t, r);
    var (u, freed) := Evict(Pinned(t, x), need);
    AdoptedHeld(cfg, u, Installed(cfg, r, blocks, n));
    CoreLeak(cfg, Free(p, freed).1, u, rs, [n], blocks, lost);
    var i := r.(pin := Some(n));
    HandleThere(cfg, Ref(Free(p, freed).1, blocks).1, u, rs, n, lost + blocks);
    NothingAdopted(cfg, u, i, n);
    NoneFreed(Ref(Free(p, freed).1, blocks).1);
    CoreFork(cfg, Ref(Free(p, freed).1, blocks).1, u, rs, i, lost + blocks);
  }

  lemma NoneFreed(p: Pool)
    ensures Ref(p, []) == (true, p)
  {}

  lemma AdoptedHeld(cfg: Config, t: Tree, r: Req)
    requires ConfigOk(cfg) && Adopted(cfg, t, r) && |r.kv.table| == r.shared
    ensures forall i :: 0 <= i < |r.kv.table| ==> Held(t, r.kv.table[i])
  {
    forall i | 0 <= i < |r.kv.table| ensures Held(t, r.kv.table[i]) {
      var b := r.kv.table[i];
      assert Entry(t, Chunks(r.Seq(), cfg.bs)[..i + 1], b);
    }
  }

  lemma HandleThere(cfg: Config, p: Pool, t: Tree, rs: seq<Req>, n: int, lost: seq<nat>)
    requires ConfigOk(cfg) && Core(cfg, p, t, rs, [n], -1, lost)
    ensures n in t.nodes
  {
    assert (Handles(rs) + [n])[|Handles(rs)|] == n;
  }

  lemma NothingAdopted(cfg: Config, t: Tree, r: Req, n: int)
    requires ConfigOk(cfg) && r.shared == 0 && r.pin == Some(n) && n in t.nodes
    ensures Adopted(cfg, t, r)
  {}

  lemma OverflowSafe(cfg: Config, s: Sys, u: Sys, i: Req)
    requires ConfigOk(cfg) && Safe(cfg, s) && cfg.useRadix && s.waiting != [] && i.id == s.waiting[0].id
    requires u == s.(tree := u.tree, pool := u.pool, lost := u.lost, running := s.running + [i], waiting := s.waiting[1..])
    requires Core(cfg, u.pool, u.tree, u.running, [], -1, u.lost) && |u.pool.ref| == |s.pool.ref|
    ensures Safe(cfg, u)
  {
    hide Core;
    OrderAdmit(s.running, s.waiting, i, s.nextId);
  }

  /** An overflowing attempt leaves exactly the forked references behind, and everything else in order. */
  lemma OverflowKeeps(cfg: Config, s: Sys, budget: int)
    requires ConfigOk(cfg) && Budgeted(cfg, s, budget) && s.waiting != []
    requires TreeOk(s.tree, Handles(s.running)) && s.waiting[0].Seq() != [] && AdmitOne(cfg, s, budget).Overflow?
    ensures Shape(s.tree)
    ensures var u, blocks := AdmitOne(cfg, s, budget).sys, Matched(s.tree, LookupKey(cfg, s.waiting[0]));
      && Safe(cfg, u) && blocks != [] && u.lost == s.lost + blocks
      && forall i :: 0 <= i < |blocks| ==> Held(u.tree, blocks[i])
  {
    hide Budgeted, Core, TreeOk, Shape, LruOk, Inv, Safe, Adopted, Evict, Free, Ref, Find, Walk, Matched, Pinned, StopsAt, Chunks, CeilDiv, Unshared, Held;
    BudgetedCore(cfg, s, budget);
    BudgetedSafe(cfg, s, budget);
    var r := s.waiting[0];
    var x := LookupKey(cfg, r);
    var need := CeilDiv(|r.Seq()|, cfg.bs) - |Matched(s.tree, x)| - budget;
    if !cfg.useRadix {
      UnsharedEmpty(cfg, s);
      EmptyStays(x, need);
      assert false;
    }
    OverflowTree(cfg, s.pool, s.tree, s.running, r, need, s.lost);
    var a := AdmitOne(cfg, s, budget);
    OverflowSafe(cfg, s, a.sys, r.(pin := Some(Find(s.tree, x).0)));
  }

  lemma BudgetedSafe(cfg: Config, s: Sys, budget: int)
    requires ConfigOk(cfg) && Budgeted(cfg, s, budget)
    ensures Safe(cfg, s)
  {}

  lemma UnsharedEmpty(cfg: Config, s: Sys)
    requires Unshared(cfg, s) && !cfg.useRadix
    ensures s.tree == EMPTY
  {}

  lemma BudgetedFunded(cfg: Config, s: Sys, budget: int)
    requires ConfigOk(cfg) && Budgeted(cfg, s, budget)
    ensures Inv(cfg, s) && Funded(cfg, s) && s.pc.Prefilling?
  {}

  lemma AttemptShape(cfg: Config, s: Sys, budget: int)
    requires ConfigOk(cfg) && TreeOk(s.tree, Handles(s.running)) && s.pc.Prefilling?
    requires s.waiting != [] && s.waiting[0].Seq() != []
    ensures var a := AdmitOne(cfg, s, budget);
      && (a.Admitted? ==> |a.sys.waiting| < |s.waiting|)
      && a.sys.fault == s.fault && a.sys.done == s.done && a.sys.mem == s.mem && a.sys.nextId == s.nextId
      && a.sys.aborted == s.aborted && (a.Overflow? ==> a.sys.running != []) && (!a.Overflow? ==> a.sys.lost == s.lost)
  {
    hide TreeOk, Shape, LruOk, Evict, Free, Ref, Find, Walk, Matched, Pinned, Chunks, CeilDiv, Pin, Unpin, Without;
  }

  lemma AttemptKeeps(cfg: Config, s: Sys, budget: int)
    requires ConfigOk(cfg) && Budgeted(cfg, s, budget) && s.waiting != []
    requires TreeOk(s.tree, Handles(s.running)) && s.waiting[0].Seq() != []
    ensures var a := AdmitOne(cfg, s, budget);
      if a.Admitted? then Budgeted(cfg, a.sys, a.budget)
      else if a.Refused? then Inv(cfg, a.sys) && a.sys.pc.Prefilling? && Funded(cfg, a.sys)
      else Safe(cfg, a.sys)
  {
    hide Budgeted, Inv, Funded, TreeOk, AdmitOne, Handles, Safe, Held, Matched;
    BudgetedCore(cfg, s, budget);
    var a := AdmitOne(cfg, s, budget);
    if a.Admitted? {
      AdmittedKeeps(cfg, s, budget);
    } else if a.Refused? {
      RefusedKeeps(cfg, s, budget);
      BudgetedFunded(cfg, s, budget);
    } else {
      OverflowKeeps(cfg, s, budget);
    }
  }

  /** How the admission loop ends; `broken` when an attempt overflowed. */
  datatype Admission = Admission(sys: Sys, broken: bool)

  /** The admission loop: arrival order, until one request is refused. */
  function AdmitLoop(cfg: Config, s: Sys, budget: int): (r: Admission)
    requires ConfigOk(cfg) && Budgeted(cfg, s, budget)
    ensures if r.broken then Safe(cfg, r.sys) else Inv(cfg, r.sys) && r.sys.pc.Prefilling? && Funded(cfg, r.sys)
    decreases |s.waiting|
  {
    hide Budgeted, Inv, Funded, TreeOk, Core, Shape, AdmitOne, Parked, Handles, Need, Safe;
    BudgetedCore(cfg, s, budget);
    BudgetedFunded(cfg, s, budget);
    if s.waiting == [] then Admission(s, false)
    else
      AttemptShape(cfg, s, budget);
      AttemptKeeps(cfg, s, budget);
      var a := AdmitOne(cfg, s, budget);
      if a.Admitted? then AdmitLoop(cfg, a.sys, a.budget) else Admission(a.sys, a.Overflow?)
  }

  // ---------------------------------------------------------------- preemption

  /** Give up the latest arrival: its blocks return, its tokens so far stay with it. */
  function PreemptLast(s: Sys): Sys
    requires s.running != []
    requires s.running[|s.running| - 1].pin.Some? ==> s.running[|s.running| - 1].pin.value in s.tree.nodes
  {
    var i := |s.running| - 1;
    DropRunning(s, i).(waiting := [Cleared(s.running[i], Waiting)] + s.waiting)
  }

  lemma PreemptKeeps(cfg: Config, s: Sys)
    requires ConfigOk(cfg) && Inv(cfg, s) && s.pc.Idle? && s.running != []
    ensures s.running[|s.running| - 1].pin.Some? ==> s.running[|s.running| - 1].pin.value in s.tree.nodes
    ensures Inv(cfg, PreemptLast(s)) && PreemptLast(s).pc.Idle?
  {
    hide Inv, Safe, Phases, InOrder, DropRunning, Ready;
    PreemptFacts(cfg, s);
    var i := |s.running| - 1;
    DropSafe(cfg, s, i);
    DropFrame(s, i);
    var u, r := PreemptLast(s), Cleared(s.running[i], Waiting);
    OrderRequeue(s.running, s.waiting, r, s.nextId);
    assert s.running[..i] + s.running[i + 1..] == s.running[..i];
    ReadyPrompt(cfg, s.running[i]);
    RequeueSafe(cfg, DropRunning(s, i), r);
    FewerPhases(cfg, s, u);
    SafePhases(cfg, u);
  }

  lemma PreemptFacts(cfg: Config, s: Sys)
    requires ConfigOk(cfg) && Inv(cfg, s) && s.pc.Idle? && s.running != []
    ensures Safe(cfg, s) && Phases(cfg, s) && Ready(cfg, s.running[|s.running| - 1]) && InOrder(s.running + s.waiting, s.nextId)
  {
    hide Core, InOrder, Ready;
  }

  lemma SafePhases(cfg: Config, s: Sys)
    requires ConfigOk(cfg) && Safe(cfg, s) && Phases(cfg, s)
    ensures Inv(cfg, s)
  {}

  lemma RequeueSafe(cfg: Config, s: Sys, r: Req)
    requires ConfigOk(cfg) && Safe(cfg, s) && Parked(r) && InOrder(s.running + ([r] + s.waiting), s.nextId)
    ensures Safe(cfg, s.(waiting := [r] + s.waiting))
  {
    hide Core, InOrder;
  }

  lemma FewerPhases(cfg: Config, s: Sys, u: Sys)
    requires ConfigOk(cfg) && Phases(cfg, s) && s.pc.Idle? && u.pc.Idle? && s.running != [] && u.running == s.running[..|s.running| - 1]
    ensures Phases(cfg, u)
  {
    hide Ready;
  }

  lemma ReadyPrompt(cfg: Config, r: Req)
    requires ConfigOk(cfg) && Ready(cfg, r)
    ensures Parked(Cleared(r, Waiting))
  {}

  lemma OrderRequeue(a: seq<Req>, w: seq<Req>, r: Req, next: nat)
    requires a != [] && InOrder(a + w, next) && r.id == a[|a| - 1].id
    ensures InOrder(a[..|a| - 1] + ([r] + w), next)
  {
    var all, old' := a[..|a| - 1] + ([r] + w), a + w;
    assert |all| == |old'|;
    forall i | 0 <= i < |all| ensures all[i].id == old'[i].id {
      if i >= |a| { assert all[i] == w[i - |a|]; }
    }
  }

  lemma LastRuns(cfg: Config, s: Sys)
    requires ConfigOk(cfg) && Inv(cfg, s) && s.pc.Idle? && s.running != []
    ensures s.running[|s.running| - 1].phase == Running
  {
    hide Safe;
  }

  /** Preempt until one more token for every running request is affordable. */
  function PreemptLoop(cfg: Config, s: Sys): (u: Sys)
    requires ConfigOk(cfg) && Inv(cfg, s) && s.pc.Idle?
    ensures Inv(cfg, u) && u.pc.Idle? && |u.running| <= |u.pool.free|
    decreases |s.running|
  {
    hide Inv;
    if |s.pool.free| >= |s.running| then s
    else
      PreemptKeeps(cfg, s);
      PreemptLoop(cfg, PreemptLast(s))
  }

  // ---------------------------------------------------------------- the tick, up to the forward pass

  lemma StartKeeps(cfg: Config, s: Sys)
    requires ConfigOk(cfg) && Inv(cfg, s) && s.pc.Idle?
    ensures Budgeted(cfg, s.(pc := Prefilling(0)), |s.pool.free|)
  {
    hide Core;
  }

  lemma PcKeeps(cfg: Config, s: Sys, pc: Pc)
    requires ConfigOk(cfg) && Inv(cfg, s) && PendingCount(s) == 0 && !pc.Prefilling?
    ensures Inv(cfg, s.(pc := pc))
  {
    hide Core;
  }

  /**
   From idle to the next forward pass. `order` is the order in which the aborted set is walked. When
   admission breaks off, every request in flight is dropped.
   */
  function Tick(cfg: Config, s: Sys, order: seq<nat>): (u: Sys)
    requires ConfigOk(cfg) && Inv(cfg, s) && s.pc.Idle?
    ensures Inv(cfg, u) && Funded(cfg, u)
  {
    hide Inv, Budgeted, Safe;
    var cleared := ReleaseAll(cfg, s, order).(aborted := {});
    AbortedKeeps(cfg, ReleaseAll(cfg, s, order));
    StartKeeps(cfg, cleared);
    var a := AdmitLoop(cfg, cleared.(pc := Prefilling(0)), |cleared.pool.free|);
    if a.broken then FailAll(cfg, a.sys)
    else if a.sys.pc.k > 0 then a.sys
    else
      PcKeeps(cfg, a.sys, Idle);
      var idle := a.sys.(pc := Idle);
      if idle.running == [] then idle
      else
        var v := PreemptLoop(cfg, idle);
        PcKeeps(cfg, v, Decoding);
        v.(pc := Decoding)
  }

  /** How a tick's clearing and admission end. */
  function Settled(cfg: Config, s: Sys, order: seq<nat>): Admission
    requires ConfigOk(cfg) && Inv(cfg, s) && s.pc.Idle?
  {
    hide Inv, Budgeted;
    var cleared := ReleaseAll(cfg, s, order).(aborted := {});
    AbortedKeeps(cfg, ReleaseAll(cfg, s, order));
    StartKeeps(cfg, cleared);
    AdmitLoop(cfg, cleared.(pc := Prefilling(0)), |cleared.pool.free|)
  }

  lemma AbortedKeeps(cfg: Config, s: Sys)
    requires ConfigOk(cfg) && Inv(cfg, s)
    ensures Inv(cfg, s.(aborted := {}))
  {
    hide Core;
  }
}
